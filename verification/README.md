# StreamPack boilerplate: permission gates, connection flag and live-button rules

This project models the logic of the two StreamPack sample applications
(`app` and `example`) that is not plain Android glue, and proves what that logic guarantees:

- **The permission gates.** Each sample has its own `PermissionsManager`.
  It decides which of three callbacks to fire: all granted, show a rationale, or denied.
  It also decides which permissions to request.
  The platform's two oracles are maps from permission to Boolean:
  `checkSelfPermission(p) == PERMISSION_GRANTED` and `shouldShowRequestPermissionRationale(p)`.
  A permission the map does not mention reads as false.
  A request result is the ordered list of entries of the returned map.
  Each manager is a class whose `log` records every callback fired and every request launched.
- **The view model of `app`.** `startStream` raises the "is trying to connect" flag, calls the engine, and lowers the flag in a `finally`.
  `stopStream` only forwards to the engine.
  Rotations are forwarded to the engine one by one.
  The engine's error flow is split into a "closed" channel and a general channel.
  LiveData posts and engine calls are recorded, in program order, in one `effects` trace.
  The engine's result is an input: `Success`, or `Failure` carrying a throwable.
- **The two activities.** Both reduce to a few rules:
  - the live button's listener acts only on a user press;
  - a failed start unchecks the button;
  - the button is checked while streaming or while trying to connect;
  - the orientation is locked exactly while streaming (`SCREEN_ORIENTATION_LOCKED`, 14) and is `SCREEN_ORIENTATION_UNSPECIFIED` (-1) otherwise;
  - once the permissions are granted, the audio source and then the camera are set, and the preview is bound.

The modules are:

- `Platform`: Android constants, engine outcomes and the effect trace.
- `Permissions`: oracles, events, and the `all` and `filter` operations both managers use.
- `AppPermissions` and `ExamplePermissions`: the two managers.
- `ErrorRouting`: the error channels.
- `Presenter`: the pure checked and orientation rules.
- `AppViewModel`, `AppActivity` and `ExampleActivity`.

## Model

| member | source | states |
|---|---|---|
| Permissions.All | app/src/main/java/io/github/thibaultbee/streampack/app/utils/PermissionsManager.kt:14-24 | Kotlin's `all` over the required list holds exactly when the predicate holds at every index |
| Permissions.Flagged | app/src/main/java/io/github/thibaultbee/streampack/app/utils/PermissionsManager.kt:40-44 | the filtered list is never longer than the required list |
| Permissions.FlaggedMembers | app/src/main/java/io/github/thibaultbee/streampack/app/utils/PermissionsManager.kt:40-44 | the filter keeps exactly the required permissions the rationale oracle flags |
| Permissions.FlaggedAppend | app/src/main/java/io/github/thibaultbee/streampack/app/utils/PermissionsManager.kt:40-44 | filtering distributes over concatenation, so it keeps the required-list order |
| Permissions.FlaggedNone | app/src/main/java/io/github/thibaultbee/streampack/app/utils/PermissionsManager.kt:40-44 | a list with no flagged member filters to the empty list |
| Permissions.DeniedOf | app/src/main/java/io/github/thibaultbee/streampack/app/utils/PermissionsManager.kt:56 | the denied list holds exactly the keys mapped to false; it is empty exactly when every entry is true |
| AppPermissions.HasAllPermissions | app/src/main/java/io/github/thibaultbee/streampack/app/utils/PermissionsManager.kt:14-18 | `hasAllPermissions()` holds exactly when every required permission is granted |
| AppPermissions.HasShownAllRationales | app/src/main/java/io/github/thibaultbee/streampack/app/utils/PermissionsManager.kt:20-24 | `hasShownAllRationales()` holds exactly when no required permission is flagged for a rationale |
| AppPermissions.RationaleEvents | app/src/main/java/io/github/thibaultbee/streampack/app/utils/PermissionsManager.kt:45-49 | `requestRationales()` fires at most one callback, a rationale for a non-empty list, and fires none exactly when `hasShownAllRationales()` holds |
| AppPermissions.RequestEvents | app/src/main/java/io/github/thibaultbee/streampack/app/utils/PermissionsManager.kt:26-35 | `requestPermissions()` emits exactly one event, never onDenied |
| AppPermissions.ResultEvents | app/src/main/java/io/github/thibaultbee/streampack/app/utils/PermissionsManager.kt:54-66 | the result handler emits exactly one event, never a launch |
| AppPermissions.ShownAllIffNoRationales | app/src/main/java/io/github/thibaultbee/streampack/app/utils/PermissionsManager.kt:20-24 | `hasShownAllRationales()` is true exactly when the rationale list `requestRationales()` builds is empty, which includes the case where no flag is set |
| AppPermissions.RequestOutcome | app/src/main/java/io/github/thibaultbee/streampack/app/utils/PermissionsManager.kt:26-52 | `requestPermissions()` emits exactly one event. It is onAllGranted iff every permission is granted. It is the rationale callback iff something is missing and something is flagged, and then it receives exactly the flagged permissions in order. It is a launch of the full list iff something is missing and nothing is flagged. It is never onDenied |
| AppPermissions.RetryRequestsOnlyRationales | app/src/main/java/io/github/thibaultbee/streampack/app/utils/PermissionsManager.kt:45-48 | the list handed to the rationale callback, which its retry launches, leaves out every unflagged permission, so it is not the full list |
| AppPermissions.ResultOutcome | app/src/main/java/io/github/thibaultbee/streampack/app/utils/PermissionsManager.kt:54-66 | the result handler takes exactly one branch. It fires onAllGranted iff nothing is denied. It runs a new rationale round iff something is denied and any required permission is still flagged. Otherwise it fires onDenied with exactly the keys mapped to false. It never launches |
| AppPermissions.RationaleThenDenied | app/src/main/java/io/github/thibaultbee/streampack/app/utils/PermissionsManager.kt:26-66 | scenario: the rationale names only the flagged permission; once the platform stops flagging it, a denial ends in onDenied with it |
| AppPermissions.RetryGrantedEndsAllGranted | app/src/main/java/io/github/thibaultbee/streampack/app/utils/PermissionsManager.kt:54-64 | scenario: when the retry of a one-permission rationale is granted, onAllGranted fires although another required permission is still not granted, because the handler looks only at this result |
| AppPermissions.EmptyResultEndsAllGranted | app/src/main/java/io/github/thibaultbee/streampack/app/utils/PermissionsManager.kt:54-64 | a result with no entries, such as a dismissed request, ends in onAllGranted whatever is still missing |
| AppPermissions.PermissionsManager.constructor | app/src/main/java/io/github/thibaultbee/streampack/app/utils/PermissionsManager.kt:7-13 | a new manager has the given required list and has emitted nothing |
| AppPermissions.PermissionsManager.RequestPermissions | app/src/main/java/io/github/thibaultbee/streampack/app/utils/PermissionsManager.kt:26-35 | appends to the log exactly the events `RequestOutcome` characterises |
| AppPermissions.PermissionsManager.RequestRationales | app/src/main/java/io/github/thibaultbee/streampack/app/utils/PermissionsManager.kt:37-52 | the loop builds the filtered list; the method shows the rationale for it when it is not empty, and returns true iff it is empty |
| AppPermissions.PermissionsManager.Retry | app/src/main/java/io/github/thibaultbee/streampack/app/utils/PermissionsManager.kt:46-48 | the retry of a logged rationale launches exactly the list that rationale received |
| AppPermissions.PermissionsManager.OnPermissionsResult | app/src/main/java/io/github/thibaultbee/streampack/app/utils/PermissionsManager.kt:54-66 | appends to the log exactly the events `ResultOutcome` characterises |
| ExamplePermissions.HasPermissions | app/src/main/java/io/github/thibaultbee/streampack/example/utils/PermissionsManager.kt:14-18 | `hasPermissions()` holds exactly when every required permission is granted |
| ExamplePermissions.Step | app/src/main/java/io/github/thibaultbee/streampack/example/utils/PermissionsManager.kt:26-32 | one iteration of the `forEach` emits nothing iff its permission is not flagged; otherwise it starts with the rationale for the whole required list, and emits at most two events |
| ExamplePermissions.RationaleRound | app/src/main/java/io/github/thibaultbee/streampack/example/utils/PermissionsManager.kt:25-33 | the `forEach` over a prefix emits at most two events per permission walked |
| ExamplePermissions.RoundLength | app/src/main/java/io/github/thibaultbee/streampack/example/utils/PermissionsManager.kt:25-33 | the `forEach` emits at least one and at most two events per flagged permission |
| ExamplePermissions.RequestEvents | app/src/main/java/io/github/thibaultbee/streampack/example/utils/PermissionsManager.kt:20-38 | `requestPermissions()` always emits something, and at most two events per required permission plus one |
| ExamplePermissions.ResultEvents | app/src/main/java/io/github/thibaultbee/streampack/example/utils/PermissionsManager.kt:40-49 | the result handler emits exactly one event, never a rationale or a launch |
| ExamplePermissions.Accepted | app/src/main/java/io/github/thibaultbee/streampack/example/utils/PermissionsManager.kt:29-31 | the permissions whose callback answered true are a subset of the flagged list and no more numerous |
| ExamplePermissions.AcceptedMembers | app/src/main/java/io/github/thibaultbee/streampack/example/utils/PermissionsManager.kt:29-31 | a flagged permission is kept exactly when the callback answered true at its position, in both directions |
| ExamplePermissions.StepShape | app/src/main/java/io/github/thibaultbee/streampack/example/utils/PermissionsManager.kt:26-32 | one step of the `forEach` shows the rationale once, for the whole list, iff the permission is flagged; it launches that permission alone iff it is flagged and the callback answers true |
| ExamplePermissions.RoundShown | app/src/main/java/io/github/thibaultbee/streampack/example/utils/PermissionsManager.kt:25-33 | the rationale callback is called once per flagged permission, each time with the whole required list |
| ExamplePermissions.RoundLaunched | app/src/main/java/io/github/thibaultbee/streampack/example/utils/PermissionsManager.kt:25-33 | the permissions launched by the walk are exactly the flagged ones whose callback answered true, in order |
| ExamplePermissions.RoundEvents | app/src/main/java/io/github/thibaultbee/streampack/example/utils/PermissionsManager.kt:25-33 | every event of the walk is the rationale for the whole list or a single-permission launch of a flagged permission |
| ExamplePermissions.RoundQuietWithoutFlags | app/src/main/java/io/github/thibaultbee/streampack/example/utils/PermissionsManager.kt:25-33 | a walk that meets no flagged permission emits nothing |
| ExamplePermissions.RequestGrantedShortCircuits | app/src/main/java/io/github/thibaultbee/streampack/example/utils/PermissionsManager.kt:20-22 | onAllGranted fires iff every permission is granted, and then nothing else happens; `requestPermissions()` never fires onDenied |
| ExamplePermissions.RequestWithoutRationale | app/src/main/java/io/github/thibaultbee/streampack/example/utils/PermissionsManager.kt:23-36 | when something is missing and nothing is flagged, the only event is a launch of the full required list |
| ExamplePermissions.RequestWithRationale | app/src/main/java/io/github/thibaultbee/streampack/example/utils/PermissionsManager.kt:23-36 | when something is missing and something is flagged, there is one rationale per flagged permission, each for the whole list. The launches are single-permission requests for the accepted flagged permissions, in order, and number at most the flagged ones |
| ExamplePermissions.ResultOutcome | app/src/main/java/io/github/thibaultbee/streampack/example/utils/PermissionsManager.kt:40-49 | the result handler fires onDenied iff some key is mapped to false, and then with exactly the denied list `keys.toList()` builds, and onAllGranted otherwise. It never shows a rationale or launches |
| ExamplePermissions.PermissionsManager.constructor | app/src/main/java/io/github/thibaultbee/streampack/example/utils/PermissionsManager.kt:7-13 | a new manager has the given required list and has emitted nothing |
| ExamplePermissions.PermissionsManager.RequestPermissions | app/src/main/java/io/github/thibaultbee/streampack/example/utils/PermissionsManager.kt:20-38 | appends to the log exactly the events the three request lemmas above characterise |
| ExamplePermissions.PermissionsManager.WalkRationales | app/src/main/java/io/github/thibaultbee/streampack/example/utils/PermissionsManager.kt:24-33 | the `forEach` emits the walk's events; `hasShownRationale` ends true iff some required permission is flagged |
| ExamplePermissions.PermissionsManager.VisitPermission | app/src/main/java/io/github/thibaultbee/streampack/example/utils/PermissionsManager.kt:26-32 | one iteration emits one step's events and reports whether the permission is flagged |
| ExamplePermissions.PermissionsManager.OnPermissionsResult | app/src/main/java/io/github/thibaultbee/streampack/example/utils/PermissionsManager.kt:40-49 | appends to the log exactly the event `ResultOutcome` characterises |
| ErrorRouting.NotNull | app/src/main/java/io/github/thibaultbee/streampack/app/MainViewModel.kt:47-48 | `filterNotNull` keeps every non-null value as often as it occurs in the flow, and nothing else |
| ErrorRouting.WithClosed | app/src/main/java/io/github/thibaultbee/streampack/app/MainViewModel.kt:47-54 | the `isClosedException` filter keeps exactly the errors with the wanted answer |
| ErrorRouting.ClosedErrors | app/src/main/java/io/github/thibaultbee/streampack/app/MainViewModel.kt:47-48 | `closedThrowableLiveData` carries exactly the non-null errors the engine calls closed |
| ErrorRouting.OtherErrors | app/src/main/java/io/github/thibaultbee/streampack/app/MainViewModel.kt:53-54 | `throwableLiveData` carries exactly the non-null errors the engine does not call closed |
| ErrorRouting.WithClosedSplits | app/src/main/java/io/github/thibaultbee/streampack/app/MainViewModel.kt:47-54 | the two filters together keep every error exactly as often as it occurs |
| ErrorRouting.ChannelsPartition | app/src/main/java/io/github/thibaultbee/streampack/app/MainViewModel.kt:47-54 | nulls are dropped. Every non-null error reaches exactly one channel, counted with multiplicity: the closed channel iff the engine calls it closed, the general channel otherwise. The channels are disjoint |
| Presenter.Checked | app/src/main/java/io/github/thibaultbee/streampack/app/MainActivity.kt:118-134 | the if/else-if chain both observers run checks the button iff the observed value is true or the other LiveData reads true, an absent value reading as false |
| Presenter.ObserversAgree | app/src/main/java/io/github/thibaultbee/streampack/app/MainActivity.kt:118-134 | whichever of the two observers fires, the button ends in the same state |
| Presenter.OrientationFor | app/src/main/java/io/github/thibaultbee/streampack/app/MainActivity.kt:113-117 | the orientation is locked iff streaming, and is the application's unlocked orientation otherwise |
| AppViewModel.MainViewModel.constructor | app/src/main/java/io/github/thibaultbee/streampack/app/MainViewModel.kt:41-42 | the trying LiveData starts without a value, and nothing has been done yet |
| AppViewModel.MainViewModel.StartStream | app/src/main/java/io/github/thibaultbee/streampack/app/MainViewModel.kt:73-83 | posts true, then connects to the fixed URL, then posts false, whatever the engine does. The flag ends false. The engine's failure reaches the caller unchanged |
| AppViewModel.MainViewModel.StopStream | app/src/main/java/io/github/thibaultbee/streampack/app/MainViewModel.kt:88-90 | only forwards to the engine; the trying flag is left unchanged |
| AppViewModel.MainViewModel.ForwardRotations | app/src/main/java/io/github/thibaultbee/streampack/app/MainViewModel.kt:57-66 | each rotation is handed to the engine in order, and the engine ends up holding the last one |
| AppViewModel.MainViewModel.SetAudioSource | app/src/main/java/io/github/thibaultbee/streampack/app/MainViewModel.kt:139-141 | the microphone is set as the engine's audio source |
| AppViewModel.MainViewModel.SetCameraId | app/src/main/java/io/github/thibaultbee/streampack/app/MainViewModel.kt:148-151 | the given camera is set as the engine's video source |
| AppActivity.MainActivity.constructor | app/src/main/java/io/github/thibaultbee/streampack/app/ApplicationConstants.kt:13 | the activity starts unchecked, with the application's supported orientation (UNSPECIFIED) |
| AppActivity.MainActivity.OnLiveButtonCheckedChange | app/src/main/java/io/github/thibaultbee/streampack/app/MainActivity.kt:73-95 | a change that is not a user press does nothing. Checking starts the stream, and the button ends unchecked iff the start failed. Unchecking stops the stream and leaves the trying flag alone |
| AppActivity.MainActivity.OnIsStreaming | app/src/main/java/io/github/thibaultbee/streampack/app/MainActivity.kt:112-125 | the orientation is locked iff streaming, and the supported orientation otherwise. The button is checked iff streaming or the trying flag reads true |
| AppActivity.MainActivity.OnIsTryingConnection | app/src/main/java/io/github/thibaultbee/streampack/app/MainActivity.kt:127-135 | the button is checked iff trying, or the streaming value reads true |
| AppActivity.MainActivity.LockOrientation | app/src/main/java/io/github/thibaultbee/streampack/app/MainActivity.kt:138-146 | the orientation becomes SCREEN_ORIENTATION_LOCKED |
| AppActivity.MainActivity.UnlockOrientation | app/src/main/java/io/github/thibaultbee/streampack/app/MainActivity.kt:148-150 | the orientation becomes the supported orientation |
| AppActivity.MainActivity.OnPermissionsGranted | app/src/main/java/io/github/thibaultbee/streampack/app/MainActivity.kt:157-176 | the audio source, then the default camera, become the engine's sources, and the preview is bound |
| ExampleActivity.Reports | app/src/main/java/io/github/thibaultbee/streampack/example/MainActivity.kt:178-181 | one message per error of the channel, in the channel's order: report `i` is the channel's prefix followed by the message of error `i`; hence every error is reported and every report is that of one of its errors |
| ExampleActivity.ErrorReports | app/src/main/java/io/github/thibaultbee/streampack/example/MainActivity.kt:176-181 | the general collector shows one report per non-closed error, in flow order: report `i` is "Error: " and the message of the `i`-th non-closed error; every such error is reported and every report is that of such an error |
| ExampleActivity.ConnectionLostReports | app/src/main/java/io/github/thibaultbee/streampack/example/MainActivity.kt:185-190 | the connection collector shows one report per closed error, in flow order: report `i` is "Connection lost: " and the message of the `i`-th closed error; every such error is reported and every report is that of such an error |
| ExampleActivity.ReportsPartition | app/src/main/java/io/github/thibaultbee/streampack/example/MainActivity.kt:175-191 | every non-null error is reported: as "Connection lost" when closed and as "Error" otherwise. There are as many reports as non-null errors, and nulls are not reported. An error occurring `k` times in the flow occurs `k` times in its own channel (so gets `k` reports there) and never in the other |
| ExampleActivity.MainActivity.constructor | app/src/main/java/io/github/thibaultbee/streampack/example/MainActivity.kt:96-99 | the activity starts unchecked and unlocked, with no trying value and no rotation, and has done nothing yet |
| ExampleActivity.MainActivity.OnLiveButtonCheckedChange | app/src/main/java/io/github/thibaultbee/streampack/example/MainActivity.kt:110-138 | only a user press acts. Checking posts true, connects to the fixed URL and posts false in `finally`. A failure is caught and unchecks the button. Unchecking stops the stream |
| ExampleActivity.MainActivity.OnIsStreaming | app/src/main/java/io/github/thibaultbee/streampack/example/MainActivity.kt:158-173 | the orientation is locked iff streaming, and UNSPECIFIED otherwise. The button is checked iff streaming or the trying flag reads true |
| ExampleActivity.MainActivity.LockOrientation | app/src/main/java/io/github/thibaultbee/streampack/example/MainActivity.kt:194-202 | the orientation becomes SCREEN_ORIENTATION_LOCKED |
| ExampleActivity.MainActivity.UnlockOrientation | app/src/main/java/io/github/thibaultbee/streampack/example/MainActivity.kt:204-206 | the orientation becomes SCREEN_ORIENTATION_UNSPECIFIED |
| ExampleActivity.MainActivity.ForwardRotations | app/src/main/java/io/github/thibaultbee/streampack/example/MainActivity.kt:151-155 | each rotation is handed to the engine in order, and the engine ends up holding the last one |
| ExampleActivity.MainActivity.OnPermissionsGranted | app/src/main/java/io/github/thibaultbee/streampack/example/MainActivity.kt:213-233 | the microphone, then the default camera, become the engine's sources, and the preview is given the streamer and started |

## Left out

- The streaming engine is not part of this model: `SingleStreamer`, `DualStreamer`, `startStream`, `stopStream`, `setAudioSource`, `setCameraId`, `setTargetRotation`, `isStreamingFlow`, `throwableFlow` and `isClosedException`.
  Its calls are recorded as effects.
  Its outcome is an input.
  `isClosedException` is a field of the modelled throwable.
- `stopStream`, `setAudioSource` and `setCameraId` are modelled as always returning normally. What a failure there does depends on the coroutine that runs them, which is not modelled.
- `setAudioConfig`, `setVideoConfig` and the example's `configureStreamer` are not modelled. They pass fixed, opaque configuration values to the engine and make no decision.
- Coroutines, dispatchers, Flow collection and LiveData delivery are not modelled. Each handler is one sequential step.
  `postValue` is modelled as taking effect at once.
  So the stale `isTryingConnectionLiveData.value` that a collector can read just after a post is not captured.
  LiveData's conflation of values an observer has not yet seen is not captured either.
  The value an observer reads from the other LiveData is an input to its step.
- AppActivity.MainActivity.OnLiveButtonCheckedChange: any engine failure unchecks the button, whereas `catch (e: Exception)` lets a throwable that is not an `Exception` propagate.
- ExampleActivity.MainActivity.OnLiveButtonCheckedChange: any engine failure is caught and unchecks the button, whereas `catch (e: Exception)` lets a throwable that is not an `Exception` propagate, after the `finally` has posted false.
- AppActivity.MainActivity.OnPermissionsGranted: the sources are set and the preview is bound in separate coroutines, so their relative order is not modelled; only the order of the audio source before the camera, which share one coroutine, is stated.
- ExampleActivity.MainActivity.OnPermissionsGranted: the preview is given the streamer at once, while the sources are set in a coroutine that may still be suspended, so the relative order of the two is not modelled; only the order of the audio source before the camera is stated.
- Toasts, `Log` calls, dialogs and view binding are not modelled. That includes the messages on a failed connection and the `app` activity's two error toasts. Only the `example` activity's error reports are modelled, as the strings they show.
- The Android permission APIs are not modelled. `checkSelfPermission` and `shouldShowRequestPermissionRationale` become maps read at the moment of each step. `registerForActivityResult` becomes a result handler called with the result's entries in the map's iteration order.
- How each activity wires the manager's callbacks to its own dialogs is not modelled. The `example` activity passes a two-argument rationale lambda, which does not match the manager's one-argument `(List<String>) -> Boolean` parameter; each manager is modelled from its own code.
- The `example` manager's rationale callback answers through an input list: its k-th call answers the k-th element, and a call beyond the list answers false.
- `RotationRepository` is not part of this model; rotations are opaque integers.
- The lifecycle observer, `onStart`, `onDestroy`, `MainViewModelFactory.kt`, `Extensions.kt` and `build.gradle.kts` are not modelled.
