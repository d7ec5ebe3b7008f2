# Watch relay and device requests of jitsi-meet, modelled in Dafny

The model covers three parts of jitsi-meet.

The first is the phone side of the Apple Watch relay (`react/features/mobile/watchos`). It keeps
a small context (conference URL, session id, mute state, join timestamp, recent meetings) and
publishes it to the watch. It applies commands arriving from the watch only when they carry the
current session id. That session id is a clock reading minted with every conference-URL change.

The second is the watch controller (`ios/app/watchos/extension/InCallController.swift`). It
stamps outgoing commands with the session id it was last given and flips the mute state
optimistically. It also shows the room name and runs the call timer.

The third is the external device-request dispatcher and the device selection dialog's
properties (`react/features/device-selection/functions.js`).

Files:

- `wire.dfy`: JavaScript-like values (`JsValue`), truthiness, property bags (`Message`), `||`.
- `watchos_actions.dfy`: the action creators, and `setRecentUrls` as a slice copy reversed in place.
- `watchos_state.dfy`: the `features/mobile/watchos` slice. The reducer file is not part of this
  model. `ApplyWatchAction` assumes each action stores its payload under the key of the same name.
  Nothing else is assumed, so in the model only a URL change replaces the session id.
- `watchos_middleware.dfy`: the URL selector, the session fence and command switch
  (`CommandDispatch`), and the class `PhoneRelay`. `PhoneRelay` holds the store fields the relay
  reads. It keeps logs of dispatched actions (`dispatched`) and of contexts handed to the
  transport (`published`). Its methods are the three state listeners, a connection change
  that runs the URL listener, the middleware and the two watch callbacks.
- `watch_extension.dfy`: the command builders, the `/`-split room label and the class
  `InCallController`. The class holds the sent messages and abstract UI state: label text,
  timer running and date, and the mute image.
- `device_selection.dfy`: `GetDeviceSelectionDialogProps` and `ProcessExternalDeviceRequest`.
  The latter returns what the JavaScript returns (or its TypeError), plus the ordered effects:
  responses, dispatches, pending requests and device changes.
- `relay_scenario.dfy`: commands built by the watch, run through the phone's handler, and a
  rejoin played on the relay itself.

Inputs the original reads from its environment are parameters:
- the clock (`now`);
- `WCSession.isSupported()` (`sessionSupported`);
- the invite URL and whether it is ready;
- every `JitsiMeetJS` query, `areDeviceLabelsInitialized`, `getAudioOutputDeviceId` and
  `getDeviceIdByLabel` (`MediaQueries`);
- the device list `getAvailableDevices()` resolves to.

Facts about the code that the model keeps:
- `setConferenceURL` carries its argument unchanged (`SetConferenceURL`). The `"NULL"`
  normalisation is done in `_getCurrentConferenceUrl` (`GetCurrentConferenceUrl`). The URL
  listener dispatches that selector's value.
- CONFERENCE_JOINED only records the join timestamp and publishes (`PhoneRelay.Middleware`).
  The session changes only in the URL listener.
- A session is stamped with the clock reading on every run of the URL listener. Only that
  action replaces the session (`SessionOnlyChangesWithUrl`). When the listener runs is decided
  by the state-listener registry. `PhoneRelay.InviteUrlChanged` takes the registry's rule as
  given: the listener runs when the selected value changes.

Behaviour the model makes explicit:
- A valid-session `joinConference` without `data` reads `undefined` and navigates away, like a
  hangup (`JoinWithoutDataNavigatesAway`).
- A session id of `0` is falsy, so it would fence off every command.
- The session id is the clock reading in milliseconds. Two URL changes within the same
  millisecond store the same id, and a command stamped during the earlier conference then
  passes the session check (`SameInstantRejoinKeepsStaleCommand`). The stale-command lemmas
  require the clock to have moved for this reason.
- `muteClicked` does not update the stored context. Two taps before the next context arrives
  send the same value twice (`InCallController.MuteClicked` has no write access to
  `currentContext`).

## Model

| member | source | states |
|---|---|---|
| WatchOsActions.SetConferenceTimestamp | react/features/mobile/watchos/actions.js:19-24 | the action is a timestamp action carrying its argument unchanged |
| WatchOsActions.SetConferenceURL | react/features/mobile/watchos/actions.js:37-43 | the action carries the URL unchanged and a session id equal to the clock reading |
| WatchOsActions.SetMicMuted | react/features/mobile/watchos/actions.js:54-59 | the action is a mute action carrying its argument unchanged |
| WatchOsActions.SetRecentUrls | react/features/mobile/watchos/actions.js:71-80 | the action's list is the last MAX_RECENT_URLS entries of the input, newest first; the input array is only read |
| WatchOsActions.SliceFrom | react/features/mobile/watchos/actions.js:73 | `slice(start)` gives a tail of the input; a negative start keeps min(length, -start) entries, a non-negative one drops `start` entries |
| WatchOsActions.NewestFirst | react/features/mobile/watchos/actions.js:72-75 | the list sent is never longer than the input, nor than the bound when the bound is at least 1 |
| WatchOsActions.SliceLast | react/features/mobile/watchos/actions.js:73 | a fresh array equal to JavaScript's `slice(-max)` of the input |
| WatchOsActions.ReverseInPlace | react/features/mobile/watchos/actions.js:75 | the array afterwards holds its former contents in reverse order |
| WatchOsActions.ReversedLength | react/features/mobile/watchos/actions.js:75 | reversing keeps the length |
| WatchOsActions.ReversedAt | react/features/mobile/watchos/actions.js:75 | element i of the reversal is element len-1-i of the original |
| WatchOsActions.NewestFirstLength | react/features/mobile/watchos/actions.js:72-75 | the list sent holds min(input length, max) entries, for every max of at least 1 |
| WatchOsActions.NewestFirstAt | react/features/mobile/watchos/actions.js:72-75 | element i of the list sent is input element len-1-i: newest first, taken from the tail |
| WatchOsActions.NewestFirstZeroKeepsAll | react/features/mobile/watchos/actions.js:73 | with a bound of 0, `slice(-0)` keeps the whole list, which is then only reversed |
| WatchOsMiddleware.GetCurrentConferenceUrl | react/features/mobile/watchos/middleware.js:142-156 | a ready, non-empty URL not ending in `/` is returned unchanged, anything else becomes "NULL"; the result is never empty and never ends in `/` |
| WatchOsMiddleware.CommandDispatch | react/features/mobile/watchos/middleware.js:95-131 | nothing is dispatched unless the message's session id is truthy and strictly equal to the stored one, nor for a command outside the three; joinConference navigates to `data` exactly when it differs from the current URL; setMuted dispatches setAudioMuted(muted === "true", true); hangup navigates to undefined exactly when the URL is not "NULL" |
| WatchOsMiddleware.JoinWithoutDataNavigatesAway | react/features/mobile/watchos/middleware.js:110-118 | a valid joinConference with no `data` dispatches appNavigate(undefined) |
| WatchOsMiddleware.SameInstantRejoinKeepsStaleCommand | react/features/mobile/watchos/middleware.js:99-107 | when the rejoin mints the id already stored, a hangup stamped with that id still dispatches appNavigate(undefined) |
| WatchOsMiddleware.StaleCommandAfterRejoin | react/features/mobile/watchos/middleware.js:99-107 | once a URL change has stored a session minted at a different time, a message carrying the previous session id dispatches nothing, whatever its command |
| WatchOsMiddleware.SessionOnlyChangesWithUrl | react/features/mobile/watchos/actions.js:37-43 | after any run of actions the session id is the one carried by the last URL action, or the starting one when the run has no URL action |
| WatchOsMiddleware.ToLowerCase | react/features/mobile/watchos/middleware.js:83 | lower-casing keeps the length and maps each character through the ASCII case mapping |
| WatchOsMiddleware.ActivatedIgnoringCase | react/features/mobile/watchos/middleware.js:83-85 | a watch state triggers a publish exactly when it spells `activated` in some letter case |
| WatchOsMiddleware.ActivatedExamples | react/features/mobile/watchos/middleware.js:83-85 | "ACTIVATED" triggers a publish, "active" does not |
| WatchOsMiddleware.PhoneRelay.UpdateApplicationContext | react/features/mobile/watchos/middleware.js:194-203 | the whole watchos slice is appended to the published contexts |
| WatchOsMiddleware.PhoneRelay.RecentListListener | react/features/mobile/watchos/middleware.js:24-29 | dispatches setRecentUrls of the list, stores the newest-first list, keeps the session, publishes the new context |
| WatchOsMiddleware.PhoneRelay.MicMutedListener | react/features/mobile/watchos/middleware.js:32-37 | dispatches setMicMuted, stores the mute state, keeps the session, publishes the new context |
| WatchOsMiddleware.PhoneRelay.ConferenceUrlListener | react/features/mobile/watchos/middleware.js:40-45 | dispatches setConferenceURL of the selector's current URL, stores that URL and a session id equal to the clock reading, publishes the new context; the published URL is "NULL" or non-empty and not ending in `/` |
| WatchOsMiddleware.PhoneRelay.InviteUrlChanged | react/features/mobile/watchos/middleware.js:40-45 | a connection change stores the invite URL; when the selected URL changes the listener mints the session `now` and publishes, otherwise nothing else changes |
| WatchOsMiddleware.PhoneRelay.DispatchWatchAction | react/features/mobile/watchos/middleware.js:27 | dispatching one of the feature's actions logs it and applies it to the watchos slice |
| WatchOsState.ApplyWatchAction | react/features/mobile/watchos/middleware.js:186-196 | the assumed reducer (the watchos `reducer.js` is not part of this model; these lines say the context is that reducer's state): only a URL action moves the URL and the session, each other action moves only its own field |
| WatchOsMiddleware.PhoneRelay.Middleware | react/features/mobile/watchos/middleware.js:53-65 | every action is passed on unchanged; APP_WILL_MOUNT registers the watch callbacks; CONFERENCE_JOINED dispatches the clock reading as timestamp, stores it and publishes; other actions change nothing |
| WatchOsMiddleware.PhoneRelay.OnWatchState | react/features/mobile/watchos/middleware.js:76-86 | publishes the context exactly when there is no error and the state is `activated` ignoring case |
| WatchOsMiddleware.PhoneRelay.OnMessage | react/features/mobile/watchos/middleware.js:88-131 | an error dispatches nothing; otherwise the dispatch log grows by what CommandDispatch gives for the stored session and the current URL, and never for a message outside the current session |
| WatchExtension.WithSession | ios/app/watchos/extension/InCallController.swift:46-52 | the sent data has every key of the message plus `sessionID`, the context's session id overrides any `sessionID` in the message, and every other value is kept |
| WatchExtension.CopyWithSession | ios/app/watchos/extension/InCallController.swift:46-50 | the key-by-key copy followed by the stamp gives exactly WithSession, whatever order the keys are visited in |
| WatchExtension.HangupCommand | ios/app/watchos/extension/InCallController.swift:29 | the hangup command names `hangup` and carries no session id of its own |
| WatchExtension.MuteCommand | ios/app/watchos/extension/InCallController.swift:35-38 | the setMuted command carries `muted` as "true" exactly when the new state is muted, and no session id of its own |
| WatchExtension.JoinCommand | ios/app/watchos/extension/InCallController.swift:61-64 | the joinConference command carries the URL as `data`, and no session id of its own |
| WatchExtension.Components | ios/app/watchos/extension/InCallController.swift:68 | `components(separatedBy: "/")` gives at least one piece and no piece holds a `/` |
| WatchExtension.LastComponent | ios/app/watchos/extension/InCallController.swift:68 | `.last` of the pieces holds no `/` |
| WatchExtension.JoinComponents | ios/app/watchos/extension/InCallController.swift:68 | splitting on `/` and joining back with `/` gives the URL back |
| WatchExtension.LastComponentIsSuffix | ios/app/watchos/extension/InCallController.swift:68 | the last component is a suffix of the URL with no `/`, and it is the whole URL or follows a `/` |
| WatchExtension.ComponentsOfPlain | ios/app/watchos/extension/InCallController.swift:68 | a string without `/` splits into itself alone |
| WatchExtension.LastComponentAfterSlash | ios/app/watchos/extension/InCallController.swift:68 | for any prefix, the last component of prefix + "/" + name is name |
| WatchExtension.RoomLabel | ios/app/watchos/extension/InCallController.swift:68-70 | the label is the last component unless that is "NULL", then empty; it never contains `/` and is never "NULL" |
| WatchExtension.RoomLabelExamples | ios/app/watchos/extension/InCallController.swift:68-70 | "https://x/room1" shows "room1", "NULL" shows nothing |
| WatchExtension.TruncDiv | ios/app/watchos/extension/InCallController.swift:82 | `conferenceTimestamp / 1000` rounds towards zero: the remainder has the sign of the timestamp and is smaller than the divisor |
| WatchExtension.InCallController.Outgoing | ios/app/watchos/extension/InCallController.swift:43-55 | one send holds at most one message; it is there exactly when sessions are supported and a session id is known, and it is the message stamped with that id |
| WatchExtension.InCallController.SendMessage | ios/app/watchos/extension/InCallController.swift:43-55 | the sent log grows by Outgoing(message) and by nothing else |
| WatchExtension.InCallController.HangupClicked | ios/app/watchos/extension/InCallController.swift:28-30 | sends exactly {command: "hangup", sessionID}, when sessions are supported and a session id is known |
| WatchExtension.InCallController.MuteClicked | ios/app/watchos/extension/InCallController.swift:32-41 | with a known mute state b, it sends setMuted with muted "true"/"false" for !b and shows !b; with none, it sends and changes nothing |
| WatchExtension.InCallController.UpdateUI | ios/app/watchos/extension/InCallController.swift:57-78 | a join URL is echoed as a joinConference command and labelled in place of the conference URL; the label is RoomLabel of that URL; a timestamp restarts or stops the timer, none leaves it; a mute state is shown, none leaves the button |
| WatchExtension.InCallController.RestartTimer | ios/app/watchos/extension/InCallController.swift:80-90 | a non-zero timestamp starts the timer at timestamp/1000 seconds (truncating), zero stops it and keeps its date |
| WatchExtension.InCallController.UpdateMutedButton | ios/app/watchos/extension/InCallController.swift:92-98 | the button shows the given mute state |
| WatchExtension.InCallController.Awake | ios/app/watchos/extension/InCallController.swift:100-106 | a context renders as UpdateUI does (join echo, label, timer and mute button), no context changes nothing |
| DeviceSelection.GetDeviceSelectionDialogProps | react/features/device-selection/functions.js:26-54 | outside a conference audio-input change is never disabled; inside, it is disabled exactly when multiple inputs are unsupported; each selected id is the one in use when truthy, otherwise the user-selected one |
| DeviceSelection.LastMatch | react/features/device-selection/functions.js:106-122 | a filled slot holds a device of the list whose id is in use and whose kind is the slot's |
| DeviceSelection.LastMatchIsLast | react/features/device-selection/functions.js:106-122 | each slot holds a device whose id is in use and whose kind is the slot's, no later device in the list matches, and an empty slot means no device matches |
| DeviceSelection.CurrentDeviceDescriptions | react/features/device-selection/functions.js:95-122 | the loop leaves in each slot the last device of that kind whose id is in use |
| DeviceSelection.ProcessExternalDeviceRequest | react/features/device-selection/functions.js:67-199 | a request of another type, or an unknown name, returns false with no effect, and every known name returns true (setDevice in a conference without a device throws a TypeError and has no effect); the capability queries respond with the library's answer; without labels the listing requests are parked once under their name and callback; getCurrentDevices responds with the last in-use device per kind; setDevice outside a conference is parked and changes nothing, inside it resolves the id by label or id, sets the device of its kind and responds false exactly when the id is falsy or the kind unknown |
| RelayScenario.HangupRoundTrip | react/features/mobile/watchos/middleware.js:125-130 | a watch hangup under the current session leaves a running conference and does nothing without one |
| RelayScenario.MuteRoundTrip | react/features/mobile/watchos/middleware.js:119-124 | a watch mute tap from last known state b sets the phone's microphone to !b |
| RelayScenario.JoinEcho | react/features/mobile/watchos/middleware.js:110-118 | an echoed join URL navigates only when it is not already the current conference |
| RelayScenario.RejoinDropsStaleHangup | react/features/mobile/watchos/middleware.js:99-107 | on the relay, a change to another usable invite URL mints the session `now`, and a hangup stamped with the previous session then adds nothing to the dispatch log |
| RelayScenario.StaleCommandDropped | react/features/mobile/watchos/middleware.js:99-107 | after a rejoin mints a new session, any watch command stamped with the previous session dispatches nothing |

## Left out

- The watch connectivity transport (`react-native-watch-connectivity`, `WCSession`): a send is
  an append to `sent` and a publish an append to `published`. Delivery, loss and reordering
  are not modelled. The `try`/`catch` around `updateApplicationContext` only logs, so it is
  not modelled.
- The Redux machinery. The state-listener registry is not modelled. The recent-list and
  microphone listeners are methods taking the selected value. The URL listener reads the
  selector itself, and `InviteUrlChanged` assumes the registry runs it when that value changes. `_getSessionId` and `_isAudioMuted` become direct field reads and
  parameters. So does `toState`.
- The reducers are not modelled. `ApplyWatchAction` is the assumed watchos reducer. The effects
  of `appNavigate` and `setAudioMuted` on the store, and the listeners they trigger, are only
  logged.
- A second APP_WILL_MOUNT, which would register the watch callbacks twice; the model keeps one
  flag.
- Wall-clock time: clock readings are integer inputs. `Date` and `TimeInterval` in
  `restartTimer` become the truncated number of seconds.
- Promises: `getAvailableDevices().then(...)` is modelled by the resolved device list. The
  refresh dispatch comes first in the effects and the continuation after it.
- `groupDevicesByKind` is opaque: the response records the list it is applied to.
- `setAudioOutputDeviceId` is recorded as an effect, not run.
- The `JitsiMeetJS` queries are parameters, and so are `areDeviceLabelsInitialized` and
  `getDeviceIdByLabel`.
- JavaScript numbers are integers; NaN and fractions are not modelled.
- `toLowerCase` is modelled for ASCII letters only.
- `Int64` bounds of the timestamp are not modelled.
- `Platform.OS` gating and logging are not modelled.
- WatchKit outlets and image names are reduced to the mute state shown.
- The view lifecycle overrides (`willActivate`, `didAppear`, `didDeactivate`) only call
  `super` and are not modelled.
- The Swift `JitsiMeetContext` type and the extension delegate that keeps
  `currentJitsiMeetContext` up to date are not part of this model: the context is a field of
  the controller.
- `MAX_RECENT_URLS` is defined in `constants.js`, which is not part of this model. The model
  uses 10, and every lemma about trimming holds for any bound of at least 1.
