# Polar H10 ECG monitor: session and stream-slot model

This project models two parts of an app that streams single-lead ECG from a Polar H10 chest strap:

- **The monitor screen** (`app/index.tsx`), module `EcgScreen`. It keeps a sliding window of the last 500 voltages. It sets a placeholder heart rate when a batch contains a voltage above 500 µV. It holds two session flags, `isConnected` and `isStreaming`, which device events and the four button handlers drive. Those flags decide which buttons are enabled. The screen is the class `EcgScreen.Screen`. The window update, the guard and the random draw are pure functions beside it.
- **The native Android module** (`PolarEcgModule.kt`), module `PolarEcg`. It holds one nullable SDK handle (`api`) and one nullable subscription slot (`ecgDisposable`). Starting and stopping the stream are both idempotent. It translates SDK device callbacks and stream callbacks into events with fixed payload shapes. The module is the class `PolarEcg.PolarEcgModule`. Its `sendEvent` calls are appended to the ghost log `events`. Its calls into the SDK and into a subscription are appended to the ghost log `effects`.

Module `Bridge` holds the values the two halves exchange: the four event payloads and the four commands. `Wrappers` holds `Option`, which models Kotlin's nullable values.

How the outside world enters the model:
- The result of `Math.random()` is a parameter `random` in `[0, 1)`. The drawn rate `Floor(60 + 40 * random)` is proved to lie in `[60, 99]`, and every value of that range is proved to be reachable.
- The success or failure of a command awaited by a screen handler is a boolean parameter.
- An exception thrown by an SDK call is a parameter `thrown: Option<Fault>`. Kotlin's nullable `e.message` is an `Option<string>`, and a string template shows a null message as `"null"`.
- The stream's data, error and completion callbacks, and the SDK's device callbacks, are methods that the environment calls.

Where the intended design and the code differ, the model follows the code:
- There is no `Connecting`, `Disconnecting` or `Faulted` state. The session is just the two booleans.
- Starting while a stream is live is not an `AlreadyStreaming` error. It returns "ECG streaming already running".
- Stream callbacks are not checked against the identity of a handle. An error or completion clears the slot whichever subscription raised it.
- The heart rate is a random placeholder, not a peak-interval estimator. It has no confidence level.
- The window is a list cut back with `slice(-500)`, not a ring buffer.
- Events go to the screen's listeners directly. There is no per-handler failure isolation.
- Stream completion sends no event.

## Model

| member | source | states |
|---|---|---|
| `EcgScreen.Window` | app/index.tsx:38-43 | The new window has length `min(500, old + batch)` and is a suffix of the old window followed by the batch, so it never exceeds 500 entries. |
| `EcgScreen.WindowKeepsNewest` | app/index.tsx:40-42 | The newest samples always survive: the whole batch ends the window, or the window is the batch's last 500 samples. |
| `EcgScreen.WindowAppend` | app/index.tsx:40-43 | Pushing two batches one after the other gives the same window as pushing them together. |
| `EcgScreen.PushAllIsWindowOfConcat` | app/index.tsx:38-43 | After any sequence of batches, the window is exactly the most recent `min(500, total)` voltages, in arrival order. |
| `EcgScreen.Voltages` | app/index.tsx:39 | The voltages list has one entry per payload sample, in order, each being that sample's `voltage`. |
| `EcgScreen.MaxOf` | app/index.tsx:46-47 | The maximum of a non-empty batch is one of its voltages and is at least every voltage. |
| `EcgScreen.PeakGuard` | app/index.tsx:46-48 | The guard "non-empty and maximum above 500" holds exactly when some voltage exceeds 500. |
| `EcgScreen.DrawHeartRate` | app/index.tsx:49-51 | Over the reals, `Math.floor(60 + Math.random() * 40)` is an integer in [60, 99]. |
| `EcgScreen.DrawCoversRange` | app/index.tsx:50 | Every integer in [60, 99] is drawn by some value of `Math.random()` in [0, 1). |
| `EcgScreen.StreamTarget` | app/index.tsx:156 | The start target is the known device id when that id is non-empty, and the constant `POLAR_DEVICE_ID` when it is empty. It is never empty. |
| `EcgScreen.Screen.constructor` | app/index.tsx:22-27 | The screen starts disconnected, not streaming, with an empty window, an empty device id and rate 0. |
| `EcgScreen.Screen.ConnectEnabled` | app/index.tsx:328 | Connect is enabled exactly when the screen is not connected. |
| `EcgScreen.Screen.DisconnectEnabled` | app/index.tsx:336 | Disconnect is enabled exactly when the screen is connected. |
| `EcgScreen.Screen.StartEnabled` | app/index.tsx:350 | Start is enabled exactly when the screen is connected and not streaming. |
| `EcgScreen.Screen.StopEnabled` | app/index.tsx:362 | Stop is enabled exactly when the screen is streaming. |
| `EcgScreen.Screen.ButtonsAreConsistent` | app/index.tsx:326-362 | Exactly one of Connect and Disconnect is enabled. Start and Stop are never both enabled. Stop enabled implies Disconnect enabled. |
| `EcgScreen.Screen.OnEcgData` | app/index.tsx:38-55 | The window becomes `Window(old, voltages)`. The rate becomes a drawn value in [60, 99] when some voltage exceeds 500 and is unchanged otherwise. The flags and device id are unchanged. |
| `EcgScreen.Screen.OnDeviceConnected` | app/index.tsx:57-65 | `isConnected` becomes true and `deviceId` becomes the payload's id. Connect is disabled and Disconnect enabled. |
| `EcgScreen.Screen.OnDeviceDisconnected` | app/index.tsx:67-75 | `isConnected` and `isStreaming` both become false. The window, rate and device id are kept. Only Connect is enabled. |
| `EcgScreen.Screen.Receive` | app/index.tsx:38-80 | Each event reaches its own listener and has that listener's full effect. `onEcgData` updates the window and applies the guarded rate draw, keeping the flags and device id. `onDeviceConnected` keeps `isStreaming`. `onDeviceDisconnected` keeps the device id. `onError` changes no modelled state. |
| `EcgScreen.Screen.HandleConnect` | app/index.tsx:129-137 | Issues exactly one connect to the constant device id. The flags wait for `onDeviceConnected`. |
| `EcgScreen.Screen.HandleDisconnect` | app/index.tsx:139-151 | Stops first only when streaming. A failed stop issues no disconnect and changes nothing. `isConnected` becomes false only when the disconnect succeeds. |
| `EcgScreen.Screen.HandleStartStreaming` | app/index.tsx:153-163 | Issues one start to `deviceId`, or to the constant id when `deviceId` is empty. `isStreaming` becomes true only on success, and then Start is disabled and Stop enabled. |
| `EcgScreen.Screen.HandleStopStreaming` | app/index.tsx:165-174 | A successful stop clears `isStreaming` and empties the window. A failed stop leaves both unchanged. |
| `PolarEcg.Show` | modules/polar-ecg-module/android/src/main/java/expo/modules/polarecgmodule/PolarEcgModule.kt:123 | A null exception message appears as "null" in a Kotlin string template. Any other message appears as itself. |
| `PolarEcg.IsDisposed` | modules/polar-ecg-module/android/src/main/java/expo/modules/polarecgmodule/PolarEcgModule.kt:91 | The slot counts as free (`ecgDisposable?.isDisposed ?: true`) when it is empty or holds a disposed handle. |
| `PolarEcg.StartFailureMessage` | modules/polar-ecg-module/android/src/main/java/expo/modules/polarecgmodule/PolarEcgModule.kt:135-143 | An invalid-argument exception is reported as "Invalid argument: " followed by its message. Any other exception is reported as "Error: " followed by its message. |
| `PolarEcg.StreamFailedMessage` | modules/polar-ecg-module/android/src/main/java/expo/modules/polarecgmodule/PolarEcgModule.kt:120-124 | A stream failure message starts with "ECG stream failed: " and continues with the error's message. |
| `PolarEcg.SamplePayload` | modules/polar-ecg-module/android/src/main/java/expo/modules/polarecgmodule/PolarEcgModule.kt:108-113 | The payload has one entry per sample, in order, each carrying that sample's voltage and time stamp. |
| `PolarEcg.EcgDataEvent` | modules/polar-ecg-module/android/src/main/java/expo/modules/polarecgmodule/PolarEcgModule.kt:105-118 | An `onEcgData` event carries the batch's time stamp and the batch's samples, with the same length and order. |
| `PolarEcg.PolarEcgModule.constructor` | modules/polar-ecg-module/android/src/main/java/expo/modules/polarecgmodule/PolarEcgModule.kt:18-19 | A new module has no SDK handle, an empty slot, and has sent and called nothing. |
| `PolarEcg.PolarEcgModule.Initialize` | modules/polar-ecg-module/android/src/main/java/expo/modules/polarecgmodule/PolarEcgModule.kt:27-67 | Creates the SDK handle and returns "Polar SDK Initialized". The slot and both logs are unchanged. |
| `PolarEcg.PolarEcgModule.DeviceConnected` | modules/polar-ecg-module/android/src/main/java/expo/modules/polarecgmodule/PolarEcgModule.kt:41-48 | Sends exactly one `onDeviceConnected` carrying the device's id, name and address. |
| `PolarEcg.PolarEcgModule.DeviceDisconnected` | modules/polar-ecg-module/android/src/main/java/expo/modules/polarecgmodule/PolarEcgModule.kt:50-55 | Sends exactly one `onDeviceDisconnected` carrying only the device id. The slot is untouched. |
| `PolarEcg.PolarEcgModule.BlePowerStateChanged` | modules/polar-ecg-module/android/src/main/java/expo/modules/polarecgmodule/PolarEcgModule.kt:57-59 | Sends no event and calls nothing. |
| `PolarEcg.PolarEcgModule.DeviceConnecting` | modules/polar-ecg-module/android/src/main/java/expo/modules/polarecgmodule/PolarEcgModule.kt:61-63 | Sends no event and calls nothing. |
| `PolarEcg.PolarEcgModule.ConnectToDevice` | modules/polar-ecg-module/android/src/main/java/expo/modules/polarecgmodule/PolarEcgModule.kt:69-77 | Without an SDK handle it only returns "Connecting to <id>". Otherwise it calls the SDK once. An exception sends exactly one `onError` with the raw message and is rethrown. |
| `PolarEcg.PolarEcgModule.DisconnectFromDevice` | modules/polar-ecg-module/android/src/main/java/expo/modules/polarecgmodule/PolarEcgModule.kt:79-87 | Has the same shape as connect, returning "Disconnected from <id>". |
| `PolarEcg.PolarEcgModule.StartEcgStreaming` | modules/polar-ecg-module/android/src/main/java/expo/modules/polarecgmodule/PolarEcgModule.kt:89-144 | It subscribes only when the slot is empty or disposed, installing a live handle that was never disposed before and returning "ECG streaming started for <id>". A live slot returns "ECG streaming already running" and changes nothing. Without an SDK handle it returns "started" and the slot stays empty. An exception sends one `onError`, is rethrown and leaves the slot as it was. |
| `PolarEcg.PolarEcgModule.StopEcgStreaming` | modules/polar-ecg-module/android/src/main/java/expo/modules/polarecgmodule/PolarEcgModule.kt:146-162 | A live slot is disposed once and cleared, returning "ECG streaming stopped". Otherwise it is a no-op returning "ECG streaming was not running". It never sends an event, even when it rethrows. |
| `PolarEcg.PolarEcgModule.OnStreamSettings` | modules/polar-ecg-module/android/src/main/java/expo/modules/polarecgmodule/PolarEcgModule.kt:97-102 | Opens the ECG stream on the SDK. Without an SDK handle the stream is missing, which becomes a stream error "Failed to start ECG streaming". |
| `PolarEcg.PolarEcgModule.OnStreamData` | modules/polar-ecg-module/android/src/main/java/expo/modules/polarecgmodule/PolarEcgModule.kt:105-119 | Each batch sends exactly one `onEcgData` event and changes nothing else. |
| `PolarEcg.PolarEcgModule.OnStreamError` | modules/polar-ecg-module/android/src/main/java/expo/modules/polarecgmodule/PolarEcgModule.kt:120-124 | Clears the slot and sends exactly one `onError` whose message starts with "ECG stream failed: ". |
| `PolarEcg.PolarEcgModule.OnStreamComplete` | modules/polar-ecg-module/android/src/main/java/expo/modules/polarecgmodule/PolarEcgModule.kt:125-128 | Clears the slot and sends nothing. |
| `PolarEcg.PolarEcgModule.OnDestroy` | modules/polar-ecg-module/android/src/main/java/expo/modules/polarecgmodule/PolarEcgModule.kt:164-167 | Disposes any handle in the slot and shuts the SDK down when one exists. Afterwards no stream is live. |
| `PolarEcg.StartTwice` | modules/polar-ecg-module/android/src/main/java/expo/modules/polarecgmodule/PolarEcgModule.kt:89-134 | Two starts in a row create at most one subscription, whatever either of them throws. With an SDK handle and a first start that does not throw, the second start reports "already running". |
| `PolarEcg.StopTwice` | modules/polar-ecg-module/android/src/main/java/expo/modules/polarecgmodule/PolarEcgModule.kt:146-157 | Two stops in a row dispose at most once and send no event. The second stop always reports "ECG streaming was not running". |

## Left out

- Chart rendering (`app/index.tsx:177-283`), styles, `Dimensions`, `Alert` and the status text: display only, with floating-point scaling.
- Runtime permission requests and `initializePolarSDK` in the screen: operating-system and SDK input/output.
- The screen's unmount cleanup (`app/index.tsx:82-94`). It reads the flags as captured at mount, because the effect has an empty dependency list, so it never stops or disconnects. That is closure behaviour, not state logic.
- React scheduling: each handler is modelled as one atomic step, with the awaited command's outcome as a parameter. An event arriving while a handler awaits is not interleaved. `Screen.Valid`'s `isStreaming ==> isConnected` relies on this.
- Handlers are called only while their button is enabled, as the `disabled` props ensure. Hence the `requires` on `HandleConnect`, `HandleDisconnect`, `HandleStartStreaming` and `HandleStopStreaming`.
- DrawHeartRate: the draw uses exact real arithmetic. In IEEE-754 doubles, the top one or two values of `Math.random()` (such as `1 - 2^-52`) round `60 + 40 * r` up to exactly 100, so the app can show 100. The model's range [60, 99] and the `heartRate` bound in `Screen.Valid` hold only over the reals.
- Voltages and time stamps are integers. The SDK delivers integer microvolts and nanosecond longs; JavaScript's floating-point numbers are not modelled.
- `Math.max(...voltages)` failing on an argument list too long for the engine is not modelled.
- The SDK's internals are one abstract step: `PolarBleApiDefaultImpl` setup, the `requestStreamSettings` → `flatMap` → `startEcgStreaming(maxSettings())` pipeline, and the choice of settings. That step is recorded as effects that either return or throw.
- Threading: the main-thread hop (`observeOn`) and the race between the command thread assigning `ecgDisposable` and a callback clearing it. Commands and callbacks are modelled as serialized steps.
- `Initialize`: calling it again replaces the SDK handle without shutting down the old one. Only the handle's presence is modelled, and the `reactContext` cast failing is not.
- `Log.d`/`Log.e` output.
- `PolarEcgModule.web.ts`, `PolarEcgModule.ts`, `PolarEcgModuleView.tsx`, `PolarEcgModuleView.web.tsx` and `index.ts`: thin wrappers and re-exports with no logic of their own.
