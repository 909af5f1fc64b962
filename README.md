# Rocket.Chat desktop: main-process startup and the update modal

This project models two parts of the Rocket.Chat desktop client in Dafny and
proves properties of the models.

**The main-process entry point (`src/main.js`).** The process has an
abstract `Platform` record: its command line, `NODE_ENV`, the platform name,
the Mac App Store flag, the single-instance lock answer, the application name
and the application-data directory. A class `MainProcess.App` runs the startup
sequence against that record. Every request made of the platform is appended
to an `Action` trace:
- error handlers are installed;
- protocol, user-model id and autoplay switch are set, and hardware
  acceleration is disabled on Linux;
- the user-data path is chosen from the application name and `NODE_ENV`;
- the reset-and-relaunch exit, or the single-instance exit, or the run: the
  event table is attached, the process waits for readiness, localisation is
  initialised, the UI is mounted, `start` is emitted, and the startup
  arguments are handed to `processDeepLink`.

The application-event handlers and the two process-error handlers are
methods on the same trace. Pure functions state what each step appends, and
lemmas prove order, "nothing after this step", uniqueness and argument
forwarding about those functions.

**The update modal (`src/components/modals/UpdateModal.js`).** The store
mapping, the version fall-backs and the render guard are pure functions. The
three button handlers are methods of `UpdateModal.UpdateModalHandlers`. They
append message boxes and store dispatches to an effect log. Whether the
user closes each confirmation box is an input, `DialogOutcome`.

`JsValues` holds the JavaScript values and operators both files rely on:
truthiness and the short-circuit `||`.

Three behaviours of the code that are easy to misread:
- A reset relaunches with `[argv[1]]` and nothing else. Every other
  startup argument is dropped, the reset flag with the rest
  (`src/main.js:47`, `src/main.js:91`). `ResetRelaunchesAndStops` states
  this.
- A reset removes the user-data directory itself, not only its contents
  (`src/main.js:43`). The model records `RemovePath` of that path.
- The error handlers call `app.quit(1)` (`src/main.js:15`, `src/main.js:20`).
  Electron's `app.quit` takes no argument, so the `1` does not set the exit
  status. The model records `Quit(1)`, the call as written.

**Startup failures.** `Platform.rejection` says which awaited startup step
rejects, if any: `app.whenReady`, `i18n.initialize`, or one of the four
mounts in `setupUI` (`src/main.js:76-79`, `src/main.js:103-107`). A rejected
`await` ends the anonymous startup function, so its promise rejects and
nothing after that step runs. The rejection reaches the `unhandledRejection`
listener installed at `src/main.js:18-21`, which logs it and calls
`app.quit(1)`. `App.Run` models this by delivering the reason to
`DeliverProcessError`.

## Model

| member | source | states |
|---|---|---|
| MainProcess.DirName | src/main.js:36 | the application name is a prefix; the name alone exactly in production; otherwise followed by ` (<NODE_ENV>)` |
| MainProcess.DirNameSeparatesEnvironments | src/main.js:36 | two environments share a directory name iff both are production, or neither is and they render to the same text |
| MainProcess.UnsetEnvSharesUndefinedDir | src/main.js:36 | an unset NODE_ENV renders as `undefined`, so it shares the directory of NODE_ENV="undefined" |
| MainProcess.TrailingArgsFollowFirstTwo | src/main.js:87 | `argv.slice(2)` is empty for at most two entries; otherwise the first two entries followed by it give back `argv` |
| MainProcess.ArgvAt | src/main.js:47 | `argv[i]` is the i-th string inside the command line and `undefined` past its end |
| MainProcess.UserDataPath | src/main.js:38 | the user-data path lies directly inside the application-data directory |
| MainProcess.UserDataPathSeparatesProduction | src/main.js:34-39 | a non-production run never gets the production user-data path, given that joining keeps distinct names apart (see Left out) |
| MainProcess.LoggedValue | src/main.js:14 | what the error handlers log is truthy iff the error is; a falsy error is logged as itself; a truthy stack is logged in place of its error; otherwise the error itself |
| MainProcess.FatalErrorTrace | src/main.js:13-21 | a fatal error is logged, then `quit(1)`; what is logged is truthy iff the error is |
| MainProcess.HandlerTrace | src/main.js:52-72 | only `window-all-closed` quits; only `open-url` and `second-instance` process links; `second-instance` force-focuses first |
| MainProcess.StartupOutcome | src/main.js:89-107 | the reset exit iff the flag is among the trailing arguments; the lock exit only without Mac App Store and lock; a failure only with a rejecting step; started iff none of the three applies |
| MainProcess.StartupTrace | src/main.js:82-111 | every run, whatever its outcome, begins with the error handlers, app parameters and user-data path |
| MainProcess.AppParametersTrace | src/main.js:24-32 | hardware acceleration is disabled iff the platform is linux |
| MainProcess.DeepLinks | src/main.js:110 | `forEach(processDeepLink)`: one call per link, the i-th with the i-th link |
| MainProcess.App.SetupErrorHandling | src/main.js:12-22 | appends the two process listeners and registers both events |
| MainProcess.App.DeliverProcessError | src/main.js:13-21 | an error on a listened event logs `LoggedValue(error)` and then quits with 1; an unlistened event does nothing |
| MainProcess.App.SetupAppParameters | src/main.js:24-32 | appends the protocol client, user-model id, autoplay switch and, on linux, the hardware-acceleration switch |
| MainProcess.App.SetupUserDataPath | src/main.js:34-39 | sets `userData` to `UserDataPath` and records it |
| MainProcess.App.ResetAppData | src/main.js:41-44 | removes the current user-data path |
| MainProcess.App.Relaunch | src/main.js:46-49 | relaunches with `argv[1]` followed by the given arguments, then quits |
| MainProcess.App.RequestLock | src/main.js:95 | answers the platform's lock result and records the request |
| MainProcess.App.QuitApp | src/main.js:97 | records a plain quit |
| MainProcess.App.AttachAppEvents | src/main.js:51-73 | listens to the five application events in source order |
| MainProcess.App.AwaitStep | src/main.js:103-107 | records the awaited step and resolves iff it is not the step that rejects |
| MainProcess.App.SetupUI | src/main.js:75-80 | creates the main window and mounts dock, menus and tray in that order, stopping after a mount that rejects; resolves iff none of them rejects |
| MainProcess.App.AwaitReadiness | src/main.js:103-107 | records readiness, localisation and the UI steps up to the first that rejects; resolves iff none rejects |
| MainProcess.App.ProcessDeepLinks | src/main.js:110 | hands each link to `processDeepLink`, in order |
| MainProcess.App.OnActivate | src/main.js:52-54 | shows the main window |
| MainProcess.App.OnBeforeQuit | src/main.js:56-58 | removes the main window's listeners |
| MainProcess.App.OnWindowAllClosed | src/main.js:60-62 | quits |
| MainProcess.App.OnOpenUrl | src/main.js:64-67 | suppresses the default handling, then processes the URL |
| MainProcess.App.OnSecondInstance | src/main.js:69-72 | force-focuses, then processes the other launch's trailing arguments |
| MainProcess.App.DeliverAppEvent | src/main.js:51-73 | an event runs its handler only if its listener is attached |
| MainProcess.App.Run | src/main.js:101-110 | attaches events, waits for readiness, initialises localisation, mounts the UI, emits `start`, then processes the links; a rejected step instead ends with the unhandled-rejection listener's log and `quit(1)` |
| MainProcess.App.ResetApp | src/main.js:89-92 | removes the user data, relaunches with no extra arguments, quits |
| MainProcess.App.ResetOrLockOrRun | src/main.js:87-110 | after the preamble: the reset exit, the lock exit, or the run, per `StartupOutcome` |
| MainProcess.App.Startup | src/main.js:82-111 | the whole trace is `StartupTrace`; the user-data path is set; both error listeners are registered; the five event listeners are registered exactly when the run gets past both early exits |
| MainProcess.ErrorHandlersFirst | src/main.js:83 | the first two steps of every run install the uncaught-exception and unhandled-rejection handlers |
| MainProcess.HardwareAccelerationOffOnlyOnLinux | src/main.js:29-31 | a run disables hardware acceleration iff the platform is linux |
| MainProcess.DecisionSteps | src/main.js:87-110 | after the preamble a run only requests the lock, attaches events, takes readiness steps, processes links, removes, relaunches, quits or logs |
| MainProcess.RunSteps | src/main.js:101-110 | after attaching events a run only takes readiness steps, processes links, logs or quits |
| MainProcess.ResetShape | src/main.js:89-93 | with the reset flag among the trailing arguments, the run is the preamble, removal, relaunch with `[argv[1]]` and quit |
| MainProcess.ResetRelaunchesAndStops | src/main.js:89-93 | resetting removes the data after its path is set and before the single relaunch with `[argv[1]]`; the last step is a quit |
| MainProcess.ResetOrder | src/main.js:89-92 | after unrelated steps, the path is set before it is removed, removed before the single relaunch, and the last step quits |
| MainProcess.ResetSkipsTheRest | src/main.js:89-93 | a reset run never requests the lock, attaches events, waits, mounts UI, emits `start` or processes a link |
| MainProcess.MasNeverRequestsLock | src/main.js:95 | a Mac App Store build never requests the lock and is never turned away |
| MainProcess.DeniedShape | src/main.js:95-98 | a run turned away by the lock is the preamble, the lock request and a quit |
| MainProcess.LockDeniedStops | src/main.js:95-99 | without the lock, the run requests it, then quits as its last step |
| MainProcess.LockDeniedSkipsTheRest | src/main.js:95-99 | after a denied lock no event is attached, no UI mounted, no link processed, nothing removed or relaunched |
| MainProcess.ReadyOrder | src/main.js:103-109 | between unrelated steps, readiness, localisation, window, dock, menus, tray and `start` occur once each and in that order |
| MainProcess.ReadyChain | src/main.js:103-109 | between unrelated steps, readiness, localisation, window, dock, menus, tray and `start` each come before the next |
| MainProcess.ReadyOnce | src/main.js:75-80 | between unrelated steps, each UI surface and `start` occur once |
| MainProcess.StartedShape | src/main.js:101-110 | a started run is the preamble, the lock request unless Mac App Store, the event table, the readiness steps and the startup links |
| MainProcess.ReadyPrefixOrder | src/main.js:75-109 | between unrelated steps, however many readiness steps were taken, each comes before every later one |
| MainProcess.ReadyStepsInOrder | src/main.js:75-109 | every run that attaches events, started or failed, takes readiness, localisation, window, dock, menus, tray and `start` in that order, as far as it gets |
| MainProcess.StartedSplit | src/main.js:101-110 | a started run is the steps before readiness, the readiness steps and the startup links, with no readiness step outside the middle |
| MainProcess.StartedMountsUIInOrder | src/main.js:103-109 | a started run waits for readiness, initialises localisation, mounts window, dock, menus and tray, and then emits `start` |
| MainProcess.StartedMountsEachOnce | src/main.js:75-80 | a started run mounts each UI surface once and emits `start` once |
| MainProcess.StartupProcessesArgs | src/main.js:87 | a started run processes exactly `argv.slice(2)`, in order; the early exits process nothing |
| MainProcess.StartBeforeLinks | src/main.js:109-110 | every startup link is processed after `start` is emitted |
| MainProcess.LinksLast | src/main.js:109-110 | links that follow a link-free prefix come after a `start` in it |
| MainProcess.FailedShape | src/main.js:18-107 | a failed run is the preamble, the lock request unless Mac App Store, the event table, the readiness steps up to the rejected one, the listener's log and `quit(1)` |
| MainProcess.FailedSplit | src/main.js:101-107 | a failed run is unrelated steps, the readiness steps taken, and the fatal-error steps |
| MainProcess.TakenSteps | src/main.js:103-107 | between unrelated steps, the first n readiness steps occur, the later ones do not, and no link is processed |
| MainProcess.NoLinksUnlessStarted | src/main.js:89-110 | the two early exits and a failed run process no link |
| MainProcess.RejectionStopsTheRun | src/main.js:18-107 | when a step rejects, the steps up to it occur and none after it, no link is processed, and the run ends by logging the reason and `quit(1)` |
| MainProcess.SecondInstanceForwardsArgs | src/main.js:69-72 | a second launch force-focuses first, then processes exactly its trailing arguments, in order, and nothing else |
| MainProcess.OpenUrlForwardsUrl | src/main.js:64-67 | `open-url` suppresses the default handling first and processes exactly its URL |
| MainProcess.LinksOfDeepLinks | src/main.js:110 | the links of a `forEach(processDeepLink)` are the links given, in order |
| UpdateModal.MapStateToProps | src/components/modals/UpdateModal.js:63-71 | open iff the store's modal is `'update'`; the new version is the store's `update.version` |
| UpdateModal.DisplayedVersion | src/components/modals/UpdateModal.js:58 | always truthy: the version when truthy, otherwise `x.y.z` |
| UpdateModal.CurrentVersion | src/components/modals/UpdateModal.js:119 | the `currentVersion` property when truthy, otherwise the application version |
| UpdateModal.AppVersion | src/components/modals/UpdateModal.js:54-61 | a box with its caption and flag whose version text is truthy and keeps a truthy version |
| UpdateModal.Render | src/components/modals/UpdateModal.js:107-142 | nothing iff not open; otherwise current and new boxes with truthy versions, and skip, remind-later and install buttons with only install primary |
| UpdateModal.ConnectedModalShowsStoreState | src/components/modals/UpdateModal.js:107-131 | shown iff the store's modal is `'update'`; the new version falls back to `x.y.z`; the current version falls back to the application version, then to `x.y.z` |
| UpdateModal.SkipWarning | src/components/modals/UpdateModal.js:73-81 | a warning with exactly one button and default id 0 |
| UpdateModal.DownloadNotice | src/components/modals/UpdateModal.js:83-91 | an info box with exactly one button and default id 0 |
| UpdateModal.IntentEffects | src/components/modals/UpdateModal.js:93-105 | each handler has one or two effects; it shows a box first iff its intent asks for confirmation; every dispatch is its intent's action |
| UpdateModal.DispatchesOnceIfResolved | src/components/modals/UpdateModal.js:93-105 | a handler dispatches its own action exactly once if it goes on (remind-later always, skip and install once their box is closed) and nothing otherwise |
| UpdateModal.ConfirmationComesFirst | src/components/modals/UpdateModal.js:94-104 | skip and install show their own box first and once, and every dispatch follows it; remind-later shows no box and dispatches first |
| UpdateModal.RemindLaterOnlyHides | src/components/modals/UpdateModal.js:98-100 | remind-later dispatches `hideModal` only, never a skip or a download |
| UpdateModal.SessionDispatchesResolved | src/components/modals/UpdateModal.js:93-105 | over any run of clicks, the store gets exactly the actions of the clicks that went on, in click order |
| UpdateModal.UpdateModalHandlers.ShowDialog | src/components/modals/UpdateModal.js:73-81 | shows the box and resolves iff it is closed |
| UpdateModal.UpdateModalHandlers.DispatchAction | src/components/modals/UpdateModal.js:96-103 | `dispatch(action)`: appends exactly that store action to the effect log |
| UpdateModal.UpdateModalHandlers.OnClickSkip | src/components/modals/UpdateModal.js:94-97 | appends the skip warning, then `skipUpdate` only if the warning was closed |
| UpdateModal.UpdateModalHandlers.OnClickRemindLater | src/components/modals/UpdateModal.js:98-100 | appends a single `hideModal` dispatch |
| UpdateModal.UpdateModalHandlers.OnClickInstall | src/components/modals/UpdateModal.js:101-104 | appends the download notice, then `downloadUpdate` only if the notice was closed |
| UpdateModal.UpdateModalHandlers.Click | src/components/modals/UpdateModal.js:134-138 | each button runs its own handler |

## Left out

- Platform effects are recorded as trace entries, not performed. This covers filesystem removal, the relaunch, window and tray objects and the logging sink.
- `jetpack.path` is modelled by the constructor `Joined`, so two different names always give two different paths. The real join resolves `..` and separators, which the model does not. `app.getPath('appData')` and `app.getName()` are fields of `Platform`.
- MainProcess.UserDataPathSeparatesProduction: holds because `Joined` keeps distinct directory names apart. With path normalisation it fails: application name `B)` and NODE_ENV `/../B` give the name `B) (/../B)`, which resolves to `B)` under the application-data directory, the production directory of the same application.
- Only the six awaited startup steps can fail (`src/main.js:103-107`). The synchronous platform calls before them are assumed not to throw. A step that never settles is not modelled; such a run simply stops.
- Asynchrony is not modelled. Startup and each handler are one sequential run. Events arriving while startup is suspended, and overlapping clicks with two open dialogs, are left out.
- `processDeepLink`, `createMainWindow` and the `dock`, `menus` and `tray` mount functions live in other files. They are not part of this model; only calls to them are recorded.
- `forEach(processDeepLink)` (`src/main.js:71`, `src/main.js:110`) calls `processDeepLink(link, index, array)`. The model records only the link, which assumes `processDeepLink` reads its first parameter alone.
- `app.emit('start')` and the `processDeepLink` calls after the awaits are assumed not to throw. A synchronous throw at `src/main.js:110` would stop the `forEach` and reject the startup promise, so the unhandled-rejection listener would log and call `quit(1)`; the model does not cover that.
- `mainWindow` being unset when `activate`, `before-quit` or `second-instance` fires before the window exists is not modelled. The handlers record the call as made.
- Electron's `app.on` accumulates listeners. The model keeps the set of attached events, so a listener attached twice runs once.
- `app.quit(1)`: the model records the code the source passes, not what exit status the process ends with.
- Localisation is left out. Every text is its localisation key, and `i18n.initialize` is a single `InitializeI18n` step.
- `./main/basicAuth` is imported only for its side effects; it is not modelled.
- The re-exports at the end of `src/main.js` (lines 113-119) are not modelled.
- JavaScript numbers are integers. NaN, `-0` and fractions are not modelled. An object is represented by its `stack` property alone.
- React rendering, JSX trees and styled components are reduced to the `View` value. This includes the layout, the arrow and the `current` colour.
- The store reducers are not part of this model: what `skipUpdate`, `hideModal` and `downloadUpdate` do to the state.
- Message-box dialogs resolve when closed. Which button closed them is ignored, as in the source.
