# Onboarding dialog state machine of the mock Lantern API servlet

This project models the mock HTTP API servlet of Lantern's user interface,
`mock/http_api.js`. The servlet drives the front end's modal dialogs. Each
request to one of its endpoints changes the backend's model (the shown
dialog, settings, Google Talk connectivity, roster, peers). It then
publishes the changed paths of that model to the front end. The servlet also
keeps an internal state:

- the dialog the scenario picker returns to;
- the completion flag of each onboarding dialog;
- the list of default scenario presets.

The model covers:

- the value sets of the API: modes, dialogs, interactions, Google Talk
  connectivity and operating systems (module `Enums`);
- the backend's model and the roster and peer fixtures (`Store`);
- the scenario presets and `make_simple_scenario` (`Scenarios`);
- the initial internal state and `_reset` (`ResetState`);
- the modal sequencer `_advanceModal` (`Sequencer`);
- every endpoint as a function from the session before a request to its
  outcome (`Handlers`). An outcome is the session after the request, the
  HTTP status and the published paths, in order. The endpoints are
  `interaction`, `oauthAuthorized`, `settings/unlock`, `settings/`,
  `passwordCreate` and `requestInvite`, plus `_tryConnect`;
- the servlet itself as a class, `Servlet.ApiServlet`. Its fields are the
  backend's model, the internal state and the log of published paths, and
  its methods update them in place. Each method is proved against the
  function that specifies it: `AdvanceModal` against `Sequencer.NextModal`,
  `RunScenarios` and `Reset` against `Scenarios.ApplyAll` and
  `ResetState.Reseed`, and each endpoint against its `Handlers` function.
  The proof shows the method leaves exactly the state that function
  computes and appends exactly what it publishes;
- what the endpoints promise, as lemmas (`Properties`,
  `EndpointProperties`):
  - which interactions each dialog accepts;
  - a rejected request changes nothing;
  - completion flags only rise until a confirmed reset clears them;
  - the scenario picker round trip;
  - the three ends of the connect flow;
  - a complete give-mode onboarding, step by step;
  - the field-by-field rules of `settings/`.

Some of the code's behaviour may not be what a reader expects. The model
follows the code in each case:

- Choosing give mode from a censoring country, on the welcome or the
  settings dialog, is answered 400. The shown dialog still changes to
  give-mode-forbidden (`Properties.ForbiddenGiveOutcome`).
- `settings/` stores every valid field even when another field makes it
  answer 400 (`EndpointProperties.SettingsCommitted`).
- A field that is present but empty is not absent. Such a request is
  answered 200 and changes nothing (`EndpointProperties.EmptyFieldsAreAccepted`).
- The system-proxy dialog stores the choice but does not publish
  `settings.systemProxy`.
- The scenario picker's `continue` only stores the `appliedScenarios` query
  value, and returns to the remembered dialog. It does not apply any
  scenario.
- Reopening the picker from the picker overwrites the remembered dialog
  with the picker itself. After that, `continue` stays in the picker
  (`Properties.ReopeningPickerLosesReturnDialog`).
- `passwordCreate` and `requestInvite` publish through a name that is not
  bound in their scope. Each therefore changes the model and then throws,
  so nothing is published. The model records this outcome as the status
  `Threw`.
- `firstInviteReceived` moves on in the sequence without setting any
  completion flag.

## Model

| member | source | states |
|---|---|---|
| Enums.ParseInteraction | mock/http_api.js:40-56 | the query string decodes to the interaction with that name (one of the fifteen, or the mode strings `give` and `get`); any other string decodes to none |
| Enums.ParseInteractionName | mock/http_api.js:40-56 | every interaction's name decodes back to that interaction |
| Enums.ModeChosen | mock/http_api.js:421 | exactly `give` and `get` name a mode, and the mode's string is the interaction's string |
| Store.PeerIdsOfFixtures | mock/http_api.js:359-360 | the current peer ids installed on connect are the five fixture peers' ids, in order |
| Scenarios.Merge | mock/http_api.js:163-165 | merging a setter writes its one path of the model and leaves every other field as it was |
| Scenarios.Paths | mock/http_api.js:163-166 | one path is published per setter, in the setters' order |
| Scenarios.ScenarioFromPath | mock/http_api.js:295 | looking a preset up by `category.variant` finds the preset filed under that path, and nothing for any other path |
| Scenarios.DefaultScenariosLookedUp | mock/http_api.js:280-295 | looking up each path the reset state lists, in order, finds the corresponding default preset |
| Scenarios.ApplyAllAppend | mock/http_api.js:293-298 | applying one list of presets and then another is applying their concatenation |
| Scenarios.ScenarioPathsAppend | mock/http_api.js:293-298 | the publications of a concatenated list of presets are those of the first list followed by those of the second |
| Scenarios.ScenarioPathRoundTrip | mock/http_api.js:91-156 | every preset is found under its own path |
| Scenarios.ApplyScenarioIsPreset | mock/http_api.js:91-168 | merging a preset's setters has exactly the effect of the preset written as a direct model update |
| Scenarios.ScenarioFrame | mock/http_api.js:91-156 | a preset changes only the fields of its own category |
| Scenarios.ScenarioIdempotent | mock/http_api.js:158-168 | applying a preset twice is applying it once |
| Scenarios.SameCategoryOverrides | mock/http_api.js:91-156 | of two presets of one category applied in turn, only the later one's effect remains |
| Scenarios.DefaultScenariosInOrder | mock/http_api.js:280-298 | the default list applies OS X, Beijing, internet connection, Google Talk not connected and not authorized, in that order |
| Scenarios.DefaultScenarioPaths | mock/http_api.js:280-298 | the default list publishes `system.os`, `location`, `connectivity.ip`, `connectivity.internet`, `connectivity.gtalk`, `connectivity.gtalkAuthorized`, in that order |
| Sequencer.SequenceFor | mock/http_api.js:301-302 | each mode's dialog sequence is non-empty and ends with no dialog |
| Sequencer.FirstIncompleteIndex | mock/http_api.js:313 | the position found holds an uncompleted dialog and every earlier position a completed one |
| Sequencer.FirstIncompleteUnique | mock/http_api.js:313 | a position with those two properties is the one found |
| Sequencer.NextModalGive | mock/http_api.js:301-316 | in give mode the next dialog is the first uncompleted of welcome, authorize, invite friends, finished, and otherwise `backTo` or no dialog |
| Sequencer.NextModalGet | mock/http_api.js:301-316 | in get mode the next dialog is the first uncompleted of welcome, authorize, proxied sites, system proxy, invite friends, finished, and otherwise `backTo` or no dialog |
| Sequencer.CompletedModalSkipped | mock/http_api.js:308-316 | a completed dialog is never shown next, unless it is the `backTo` dialog |
| Sequencer.BackToReplacesOnlyNone | mock/http_api.js:314-315 | `backTo` changes the choice only where it would have been no dialog |
| ResetState.ReseedModel | mock/http_api.js:289-298 | after `_reset` the model is on OS X, in China with the Beijing IP, online, and neither connected to nor authorized for Google Talk; every other field is as it was |
| ResetState.ReseedInternal | mock/http_api.js:269-291 | after `_reset` exactly the seven onboarding dialogs have flags, none of them set, and the picker returns to no dialog |
| Strings.Split | mock/http_api.js:735 | splitting gives at least one part |
| Strings.JoinSplit | mock/http_api.js:734-735 | joining the parts of a split with commas gives back the input, and no part holds a comma |
| Strings.SplitCommaFree | mock/http_api.js:735 | a value without commas splits into itself alone |
| Handlers.DialogFor | mock/http_api.js:568-573 | from the main screen exactly `inviteFriends`, `contactDevs`, `about`, `updateAvailable` and `settings` open a dialog, the dialog of the same name |
| Handlers.TryConnect | mock/http_api.js:322-364 | connecting always succeeds and never changes the internal state |
| Handlers.WelcomeCase | mock/http_api.js:420-437 | the welcome dialog sets at most its own completion flag |
| Handlers.GiveModeForbiddenCase | mock/http_api.js:439-453 | give-mode-forbidden sets at most welcome's completion flag |
| Handlers.ProxiedSitesCase | mock/http_api.js:455-467 | the proxied-sites dialog sets at most its own completion flag |
| Handlers.SystemProxyCase | mock/http_api.js:469-481 | the system-proxy dialog sets at most its own completion flag |
| Handlers.InviteFriendsCase | mock/http_api.js:483-490 | the invite-friends dialog sets at most its own completion flag |
| Handlers.GtalkUnreachableCase | mock/http_api.js:492-502 | the unreachable dialog leaves every completion flag as it was |
| Handlers.FirstInviteReceivedCase | mock/http_api.js:535-541 | the first-invite dialog leaves every completion flag as it was |
| Handlers.FinishedCase | mock/http_api.js:543-554 | the finished dialog sets at most its own completion flag |
| Handlers.SettingsCase | mock/http_api.js:589-616 | the settings dialog leaves every completion flag as it was |
| Handlers.ConfirmResetCase | mock/http_api.js:628-641 | after a confirmed reset `none` still has no completion flag |
| Handlers.SequenceDialogCase | mock/http_api.js:420-554 | the onboarding dialogs keep `none` without a completion flag |
| Handlers.ConnectDialogCase | mock/http_api.js:492-541 | the connection dialogs keep `none` without a completion flag |
| Handlers.MenuDialogCase | mock/http_api.js:556-641 | the menu dialogs keep `none` without a completion flag |
| Handlers.Interact | mock/http_api.js:393-647 | every interaction keeps `none` without a completion flag, so the sequencer's walk always ends |
| Handlers.OnOauthAuthorized | mock/http_api.js:750-762 | `oauthAuthorized` keeps `none` without a completion flag |
| Handlers.OnPasswordCreate | mock/http_api.js:367-377 | `passwordCreate` keeps `none` without a completion flag |
| Handlers.ParseMode | mock/http_api.js:673 | a mode is parsed exactly from `give` and `get`, back to the string it was parsed from |
| Handlers.ParseBool | mock/http_api.js:684-688 | a boolean is parsed exactly from `true` and `false`, and is true exactly for `true` |
| Properties.RejectedUnlessAccepted | mock/http_api.js:405-646 | an interaction the current dialog has no case for (in an independent table) is answered 400 and changes and publishes nothing |
| Properties.AcceptedSucceeds | mock/http_api.js:405-646 | an interaction the current dialog has a case for is answered 200, unless it is give mode chosen from a censoring country |
| Properties.ForbiddenGiveOutcome | mock/http_api.js:425-430 | give mode from a censoring country shows give-mode-forbidden, publishes `modal` and is answered 400 |
| Properties.BadRequestChangesNothing | mock/http_api.js:393-647 | a 400 from `interaction` leaves the session as it was, except for the give-mode-forbidden dialog shown for a forbidden give |
| Properties.UnknownInteractionRejected | mock/http_api.js:393-647 | a query value that names no interaction is rejected by every dialog and changes nothing |
| Properties.FlagsOnlyRise | mock/http_api.js:393-647 | outside a confirmed reset no interaction clears a completion flag, and only the answered dialog's flag can be set (welcome's from give-mode-forbidden) |
| Properties.FlagsAfterInteraction | mock/http_api.js:393-647 | outside a confirmed reset the flags after an interaction are the flags before it, possibly with that one flag set |
| Properties.SequenceDialogFlags | mock/http_api.js:420-554 | each onboarding dialog sets at most its own flag (give-mode-forbidden: welcome's) |
| Properties.ConnectDialogFlags | mock/http_api.js:492-541 | each connection dialog sets at most its own flag |
| Properties.MenuDialogFlags | mock/http_api.js:556-641 | each menu dialog sets at most its own flag, a confirmed reset aside |
| Properties.ResetClearsFlags | mock/http_api.js:628-639 | a confirmed reset restores the backend's model with the default presets on top, clears every flag and the picker's return dialog, and publishes the preset paths and then the whole model |
| Properties.ScenariosAcceptedEverywhere | mock/http_api.js:399-404 | `scenarios` opens the picker from every dialog, remembers that dialog, publishes only `modal` and changes no other field of the model or the internal state |
| Properties.PickerOnlyContinues | mock/http_api.js:406-410 | in the picker every interaction except `continue` and `scenarios` is rejected and changes nothing |
| Properties.ScenarioPickerRoundTrip | mock/http_api.js:399-418 | opening the picker and continuing returns to the dialog it was opened from; only the stored scenario value and the remembered dialog change |
| Properties.ReopeningPickerLosesReturnDialog | mock/http_api.js:399-418 | reopening the picker from the picker makes it remember itself, so `continue` stays in the picker |
| Properties.PickerContinue | mock/http_api.js:406-418 | `continue` in the picker stores the scenario value, shows the remembered dialog and publishes `mock.scenarios.applied` and `modal` |
| Properties.WelcomeChoice | mock/http_api.js:420-437 | on welcome, give from a censoring country only shows give-mode-forbidden, publishing `modal`, with every flag kept; otherwise the mode is stored, welcome alone becomes completed, nothing else in the model or the internal state changes, and Ubuntu goes to password creation while other systems go to authorize |
| Properties.GiveModeForbiddenContinue | mock/http_api.js:439-446 | `continue` on give-mode-forbidden switches to get mode, completes welcome and shows the next dialog of get mode's sequence with settings standing in for its end, which is neither welcome nor no dialog; it publishes the mode and then `modal` |
| Properties.GiveModeForbiddenCancel | mock/http_api.js:447-453 | `cancel` on give-mode-forbidden returns to welcome, changing nothing else and publishing only `modal`, while welcome is not completed, and is rejected with the state unchanged otherwise |
| Properties.NoModalChoices | mock/http_api.js:556-578 | on the main screen, inviting friends and contacting the developers ask to authorize unless Google Talk is connected; the five menu entries open the dialog of the same name; all else is rejected |
| Properties.ConnectOutcomes | mock/http_api.js:322-364 | connecting answers 200 and leaves the internal state alone; according to the user id it ends unreachable, not invited or invited (then with the peers and the next dialog of the sequence), and each case states the whole after-model (every other field as before) and the full list of publications |
| Properties.OauthAuthorizedCompletesAuthorize | mock/http_api.js:750-762 | `oauthAuthorized` stores the user id, authorizes Google Talk and completes authorize, with the rest of the internal state kept; then, per user id, the whole after-model and every publication of the connect flow: the unreachable user is not connected and sees the unreachable dialog; every other user is connected with the roster and sees not-invited unless invited; the invited user has the peers and the next dialog of the sequence, never authorize again |
| Properties.ProxiedSitesContinue | mock/http_api.js:455-460 | `continue` on proxied sites completes it, shows the next dialog of the sequence with settings standing in for its end, and publishes only `modal` |
| Properties.ProxiedSitesReset | mock/http_api.js:461-465 | `reset` on proxied sites restores the sites the servlet started with, publishes them and keeps the dialog open |
| Properties.SystemProxyContinue | mock/http_api.js:469-481 | `continue` on system proxy with `true` or `false` stores that choice, completes the dialog, shows the next dialog with settings standing in for the end of the sequence, and publishes only `modal` |
| Properties.GtalkUnreachableChoices | mock/http_api.js:492-502 | on the unreachable dialog `retryNow` is exactly the connect flow and `retryLater` shows authorize-later |
| Properties.ToVisContinue | mock/http_api.js:504-533 | `continue` on authorize-later or request-sent closes the dialog and shows the visualisation, publishing `modal` then `showVis` |
| Properties.NotInvitedRequest | mock/http_api.js:515-522 | `requestInvite` on not-invited shows the request-invite dialog |
| Properties.FirstInviteReceivedContinue | mock/http_api.js:535-541 | `continue` on first-invite-received shows the next dialog of the sequence with no stand-in for its end, and completes nothing |
| Properties.SettingsGetChoice | mock/http_api.js:589-602 | `get` on settings stores and publishes the mode, then shows the next dialog of get mode's sequence with settings standing in for its end |
| Properties.SettingsGiveChoice | mock/http_api.js:589-602 | `give` on settings outside a censoring country stores and publishes the mode, then shows the next dialog of give mode's sequence with settings standing in for its end |
| Properties.SettingsMenuChoices | mock/http_api.js:603-611 | `proxiedSites`, `close` and `reset` on settings show proxied sites, no dialog and the reset confirmation |
| Properties.BackToMainScreen | mock/http_api.js:580-626 | `continue` on contact-devs and `close` on about or update-available show no dialog |
| Properties.ConfirmResetCancel | mock/http_api.js:628-632 | `cancel` on the reset confirmation goes back to settings |
| Properties.InviteFriendsContinue | mock/http_api.js:483-490 | `continue` on invite-friends completes it and shows the next dialog of the sequence |
| Properties.FinishedContinue | mock/http_api.js:543-554 | `continue` on finished completes it, shows the next dialog and sets setup complete and the visualisation |
| Properties.UnlockThenGive | mock/http_api.js:384-437 | on a fresh session outside a censoring country and not on Ubuntu, unlocking shows welcome and choosing give goes to authorize with only welcome completed |
| Properties.InvitedAuthorizeInGiveMode | mock/http_api.js:750-762 | in give mode with only welcome completed, the invited user's authorization goes to invite friends with welcome and authorize completed |
| Properties.InviteFriendsToFinished | mock/http_api.js:483-490 | then `continue` goes to finished with invite friends completed too |
| Properties.FinishedClosesOnboarding | mock/http_api.js:543-554 | then `continue` closes onboarding: no dialog, setup complete, all four give-mode dialogs completed |
| Properties.ResetSessionStartsOnboarding | mock/http_api.js:269-299 | a freshly reset session meets the starting conditions of that walk when the model is not set up and China does not censor |
| EndpointProperties.ModeStepEffect | mock/http_api.js:672-682 | a given valid mode is stored and published, a given invalid one flags 400, an absent or empty one changes nothing |
| EndpointProperties.SystemProxyStepEffect | mock/http_api.js:683-693 | the same for `systemProxy` with `true`/`false` |
| EndpointProperties.LangStepEffect | mock/http_api.js:694-703 | the same for `lang` with `en`, `zh`, `fa`, `ar` |
| EndpointProperties.AutoStartStepEffect | mock/http_api.js:704-713 | the same for `autoStart` with `true`/`false` |
| EndpointProperties.AutoReportStepEffect | mock/http_api.js:714-723 | the same for `autoReport` with `true`/`false` |
| EndpointProperties.ProxyAllSitesStepEffect | mock/http_api.js:724-733 | the same for `proxyAllSites` with `true`/`false` |
| EndpointProperties.ProxiedSitesStepEffect | mock/http_api.js:734-744 | a given sites list is split at commas, stored and published, and never flags 400 |
| EndpointProperties.AllStepEffects | mock/http_api.js:671-745 | the seven checks together: each setting ends with its valid given value or its old one, 400 is flagged exactly when some given field is invalid, and exactly the stored fields are published |
| EndpointProperties.SettingsStatus | mock/http_api.js:662-748 | `settings/` answers 400 exactly when no field is present or some given field is invalid, 200 otherwise, and touches nothing but the settings |
| EndpointProperties.SettingsCommitted | mock/http_api.js:671-745 | each setting takes its given value when valid and keeps its old value otherwise, whatever the other fields hold |
| EndpointProperties.SettingsPublished | mock/http_api.js:671-745 | `settings/` publishes exactly the settings it stored, in the handler's order |
| EndpointProperties.ProxiedSitesKeepValue | mock/http_api.js:734-743 | a stored sites list has no commas and joins back to the given value |
| EndpointProperties.EmptyFieldsAreAccepted | mock/http_api.js:662-672 | a request whose fields are all present but empty is answered 200 and changes and publishes nothing |
| EndpointProperties.UnlockOutcomes | mock/http_api.js:378-392 | a missing or empty password is 400, `password` is 200 and shows welcome (no dialog once set up), any other is 403; only a 200 changes anything |
| EndpointProperties.PasswordCreateOutcomes | mock/http_api.js:367-377 | two equal non-empty passwords show authorize and complete password creation, with the rest of the internal state kept and nothing published, before the handler throws; anything else is 400 and changes nothing |
| EndpointProperties.RequestInviteOutcomes | mock/http_api.js:763-776 | `requestInvite` always shows "request sent" and throws before publishing anything, with a 400 written first exactly when `lanternDevs` is present and neither `true` nor `false` |
| Servlet.FirstIncomplete | mock/http_api.js:313 | the search loop stops at the first uncompleted dialog of the sequence |
| Servlet.RunScenario | mock/http_api.js:158-168 | a preset's function leaves the model the preset describes and publishes one path per setter |
| Servlet.ConnectSteps | mock/http_api.js:322-362 | the connection steps leave the model and publications of the connect flow, and the sequencer still has to run exactly for the invited user |
| Servlet.CheckMode | mock/http_api.js:672-682 | the in-place mode check has the effect of the mode step |
| Servlet.CheckSystemProxy | mock/http_api.js:683-693 | the in-place `systemProxy` check has the effect of its step |
| Servlet.CheckLang | mock/http_api.js:694-703 | the in-place `lang` check has the effect of its step |
| Servlet.CheckAutoStart | mock/http_api.js:704-713 | the in-place `autoStart` check has the effect of its step |
| Servlet.CheckAutoReport | mock/http_api.js:714-723 | the in-place `autoReport` check has the effect of its step |
| Servlet.CheckProxyAllSites | mock/http_api.js:724-733 | the in-place `proxyAllSites` check has the effect of its step |
| Servlet.CheckProxiedSites | mock/http_api.js:734-744 | the in-place sites check has the effect of its step |
| Servlet.ApiServlet.constructor | mock/http_api.js:69-74 | a new servlet holds the backend's model after `_reset` and the initial internal state, has published the default presets' paths, and keeps the starting proxied sites |
| Servlet.ApiServlet.RunScenarios | mock/http_api.js:293-298 | running the presets applies them in order to the model, publishes their paths, and leaves the internal state alone |
| Servlet.ApiServlet.Reset | mock/http_api.js:289-299 | `_reset` installs the initial internal state and applies the default presets to the current model |
| Servlet.ApiServlet.AdvanceModal | mock/http_api.js:308-320 | only the shown dialog changes, to the sequencer's choice, and `modal` is published |
| Servlet.ApiServlet.TryConnect | mock/http_api.js:322-364 | the servlet's state and publications after connecting are those of the connect flow |
| Servlet.ApiServlet.Interaction | mock/http_api.js:393-647 | the servlet's state, publications and status after an interaction are those the dialog's case computes |
| Servlet.ApiServlet.OauthAuthorized | mock/http_api.js:750-762 | the same for `oauthAuthorized` |
| Servlet.ApiServlet.Unlock | mock/http_api.js:378-392 | the same for `settings/unlock` |
| Servlet.ApiServlet.PasswordCreate | mock/http_api.js:367-377 | the same for `passwordCreate` |
| Servlet.ApiServlet.RequestInvite | mock/http_api.js:763-776 | the same for `requestInvite` |
| Servlet.ApiServlet.UpdateSettings | mock/http_api.js:648-749 | the same for `settings/` |

## Left out

- Sleeping (`sleep.usleep`) and console logging (`util.puts`) have no effect on the state and are left out.
- Request routing (`handleRequest`, the API prefix and version, the 404 for unknown endpoints) and URL parsing are left out. Each query parameter is an optional string; a parameter repeated in the query (which would give an array) is not modelled.
- The Bayeux backend is not part of this model. Its model is the `model` field. `publishSync` appends a `Store.Path` to the `published` log; publishing the whole model is `WholeModelPath`. `resetModel` restores the model the servlet was built with.
- `helpers.merge` and `helpers.getByPath` are not part of this model. A preset's field assignments are typed setters (`Scenarios.FieldUpdate`), and the preset table is looked up by `Scenarios.ScenarioFromPath`. The reset state keeps the presets themselves (`Scenarios.DefaultScenarios`) rather than their paths, so `_reset` applies them without a lookup; `Scenarios.DefaultScenariosLookedUp` shows the lookup of the listed paths finds those presets.
- Latitudes, longitudes, the peers' IP addresses and the roster's avatar and status-message fields are left out; none of them affects the dialogs.
- The countries table is a set of censoring countries. A country missing from the table, which makes the source throw, counts as not censoring.
- An exception thrown from a handler is the status `Threw`. What the HTTP host then does with the unfinished response is not modelled.
- The scenario value stored by the picker's `continue` is kept as the opaque query string, as the source keeps it; it is never parsed.
- ResetState.Valid: states only that `none` has no completion flag, which is what the sequencer needs to terminate. It does not state that the flags are exactly those of the seven onboarding dialogs. `ResetState.ReseedInternal` proves that for the state after `_reset`.
- Servlet.ApiServlet.Interaction: the `interaction` handler is computed on values by `Handlers.Interact` and then committed to the fields in one step, instead of field by field inside each of its seventeen cases. `_tryConnect`, `_advanceModal`, `_reset` and the other endpoints are step-by-step methods.
- Servlet.ApiServlet.Interaction: aliasing between the backend's model object and the servlet's references to it is not modelled; the model is a value.
- Handlers.Interact: its own contract states only that `none` never gets a completion flag. What each dialog does is stated by the lemmas of `Properties`.
- Handlers.SequenceDialogCase, Handlers.ConnectDialogCase, Handlers.MenuDialogCase: their own contracts state only that invariant. `Properties.SequenceDialogFlags`, `Properties.ConnectDialogFlags` and `Properties.MenuDialogFlags` state which flags they set.
- Handlers.ProxiedSitesCase, Handlers.SystemProxyCase: their own contracts state only which completion flag they may set. `Properties.ProxiedSitesContinue`, `Properties.ProxiedSitesReset` and `Properties.SystemProxyContinue` state what they do.
- Handlers.GtalkUnreachableCase, Handlers.FirstInviteReceivedCase: their own contracts state only that no completion flag changes. `Properties.GtalkUnreachableChoices` and `Properties.FirstInviteReceivedContinue` state what they do.
- Handlers.SettingsCase: its own contract states only that no completion flag changes. `Properties.SettingsGetChoice`, `Properties.SettingsGiveChoice`, `Properties.SettingsMenuChoices` and `Properties.ForbiddenGiveOutcome` state what it does.
- Handlers.ConfirmResetCase, Handlers.OnOauthAuthorized, Handlers.OnPasswordCreate: their own contracts state only that invariant. `Properties.ResetClearsFlags`, `Properties.OauthAuthorizedCompletesAuthorize` and `EndpointProperties.PasswordCreateOutcomes` state what they do.
- Handlers.TryConnect: its own contract states only the status and the unchanged internal state. `Properties.ConnectOutcomes` states the three ends of the flow.
