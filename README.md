# ALXR Android client controller and engine build rules, in Dafny

This project models two parts of the ALXR OpenXR client and proves properties about them.

**The Android activity controller** is `alxr-client-android/src/lib.rs`. It is modelled in two layers:
- `Lifecycle` (lifecycle.dfy) is the value-level specification:
  - the five-flag `AppData` state;
  - its reaction to each platform event;
  - the window-wait loop, the poll/process-frame loop and the whole `run` sequence.

  Every external call is recorded in order as a `Call`: the wifi lock, the engine's pause/resume notifications, `init_connections`, `alxr_init`, `alxr_process_frame`, `shutdown` and `alxr_destroy`.
- `AndroidClient` (android_client.dfy) is the imperative layer:
  - the `AppData` class, whose methods update its fields in place;
  - the wait loop and run loop as `while` loops;
  - `run` itself.

  Each method is proved to compute exactly the specification function. A ghost field `trace` records the calls.

`DeviceInfo` (device_info.dfy) covers the device inspection done before init. It holds the firmware version triple read from the `ID`/`DISPLAY` build properties and the case-insensitive device-name match.

**The engine build script** is `alxr-engine-sys/build.rs`, modelled in `BuildConfig` (build_config.dfy). It covers the script's decision rules:
- the Android ABI and Android-environment tests;
- the ON/OFF option strings;
- the product flavour;
- the generator default;
- the `CMAKE_PREFIX_PATH` value;
- the source-tracking filter;
- the CMake configuration the script builds, step by step, in a `CmakeConfig` builder class;
- the link and rerun directives printed for Cargo.

The build environment is a `map<string, string>`. Cargo enables feature `f` by setting `CARGO_FEATURE_<F>`. `Common` (common.dfy) holds `Option` and the Rust integer ranges.

External inputs are parameters:
- **Platform events.** `polls[k]` is the batch that the k-th `poll_events` call delivers. An empty batch is a timeout.
- **Frame results.** `frames[k]` is what the k-th `alxr_process_frame` reports.
- **Engine init.** What `alxr_init` returns: `None` for failure, otherwise the engine's system properties.
- **Native window.** `window` is the native window, or its absence.
- **Build properties.** `buildProp` is the Android build-property lookup.
- **Version parser.** `parseVersion` stands in for `version_compare::Version::from`.
- **Startup.** `startupOk` combines together the loader library load, the VM attach and the permission check.
- **Build script.** The target and host triples come already parsed. The directory walk's entries, the build's output directory and the compile-time bundled-ffmpeg condition are inputs too.

Three behaviours of `run` worth knowing:
- **More than one `shutdown`.** The teardown makes exactly one `Shutdown` and one `Destroy`, at the end. A `Pause` event during the session still calls `shutdown` from `pause`, so a run can make several `Shutdown` calls. `Lifecycle.RunPauseInSession` exhibits this.
- **A frame after `Destroy`.** A `Destroy` drained inside the run loop only takes effect at the next loop check. The frame of that iteration is still processed. `Lifecycle.RunDestroyInSession` exhibits this, and `Lifecycle.LoopStopsAfterDestroy` shows it is never more than that one frame.
- **Resize panic.** A window-resize event with no native window panics, because `native_window().unwrap()` fails. The model reports this as the `Panicked` outcome.

## Model

| member | source | states |
|---|---|---|
| AndroidClient.AppData.constructor | alvr/openxr-client/alxr-client-android/src/lib.rs:199-205 | The record starts with every flag false, no system properties and no calls. |
| AndroidClient.AppData.Pause | alvr/openxr-client/alxr-client-android/src/lib.rs:113-120 | Clears `resumed`. Calls `Shutdown` exactly when there is a session, then always `OnPause` then `ReleaseWifi`. No other field changes. |
| AndroidClient.AppData.Resume | alvr/openxr-client/alxr-client-android/src/lib.rs:122-129 | Calls `AcquireWifi`, then `OnResume`, then `InitConnections` with the stored properties only if there is a session. Never calls `Init`. Sets `resumed`. No other field changes. |
| AndroidClient.AppData.HandleLifecycleEvent | alvr/openxr-client/alxr-client-android/src/lib.rs:131-166 | Per event kind: `InitWindow` and `Destroy` set their latch; the focus events set or clear `gainedFocus`; pause and resume run the sub-procedures; every other event changes nothing and makes no call. Neither latch is ever cleared. A resize panics exactly when there is no native window. |
| AndroidClient.AppData.PollEvents | alvr/openxr-client/alxr-client-android/src/lib.rs:173-175 | One poll handles the batch's events in order and stops at a panic. The new state, calls and panic flag are those of `Lifecycle.Drain`. |
| AndroidClient.WaitUntilWindowInit | alvr/openxr-client/alxr-client-android/src/lib.rs:170-183 | Polls until destroy is requested or the window is initialised. It also stops on a panic or when the polls run out. The result is that of `Lifecycle.Wait`. |
| AndroidClient.RunLoop | alvr/openxr-client/alxr-client-android/src/lib.rs:275-286 | While destroy is not requested: drain the pending events without waiting, then process one frame, leaving after a frame that reports exit. The result is that of `Lifecycle.Loop`. |
| AndroidClient.BuildDescriptor | alvr/openxr-client/alxr-client-android/src/lib.rs:213-245 | sRGB linearisation is disabled iff the option is set or the device is a Lynx. The firmware version is `FirmwareVersionOf`. `consulted` lists the build properties read, in order: the three device names only when the option is off, then `ID`, then `DISPLAY` only when `ID` does not parse. |
| AndroidClient.StartSession | alvr/openxr-client/alxr-client-android/src/lib.rs:254-257 | Calls `Init` with the descriptor, and stops with `InitFailed` when init fails. Otherwise it continues as `Lifecycle.SessionPhase`. |
| AndroidClient.EnterSession | alvr/openxr-client/alxr-client-android/src/lib.rs:259-290 | Overrides the eye size from the window, connects, runs the loop, and then calls `Shutdown` and `Destroy` unless the frames ran out. At the moment `InitConnections` is made (`stateAtConnect`, `traceAtConnect`) the state is still the one the wait left, so the properties are stored only after connecting. |
| AndroidClient.Run | alvr/openxr-client/alxr-client-android/src/lib.rs:188-291 | The outcome, final state and calls of `run` are exactly `Lifecycle.RunSpec` of its input. |
| Lifecycle.PauseEffect | alvr/openxr-client/alxr-client-android/src/lib.rs:113-120 | `pause`: only `resumed` changes, to false, and no panic. The calls end with `OnPause, ReleaseWifi`. With a session the list is exactly `Shutdown, OnPause, ReleaseWifi`, and without one exactly `OnPause, ReleaseWifi`. |
| Lifecycle.ResumeEffect | alvr/openxr-client/alxr-client-android/src/lib.rs:122-129 | `resume`: only `resumed` changes, to true, and no panic. The calls start with `AcquireWifi, OnResume`. With a session the list is exactly `AcquireWifi, OnResume, InitConnections` with the stored properties, and without one exactly `AcquireWifi, OnResume`. |
| Lifecycle.React | alvr/openxr-client/alxr-client-android/src/lib.rs:131-166 | After one event, `windowInited` holds iff it held before or the event is `InitWindow`. The same holds for `destroyRequested` and `Destroy`. The properties are untouched. The only panic is a resize without a window. |
| Lifecycle.ReactCalls | alvr/openxr-client/alxr-client-android/src/lib.rs:113-129 | Handling an event makes only event calls, and no `Shutdown` or `InitConnections` while there is no session. |
| Lifecycle.Drain | alvr/openxr-client/alxr-client-android/src/lib.rs:173-175 | One `poll_events` call: the batch's events are handled in order, and handling stops at a panic. Its properties are stated by `DrainAfterPanic`, `DrainInvariants`, `DrainFlags` and `DrainWithWindowNeverPanics`. |
| Lifecycle.DrainAfterPanic | alvr/openxr-client/alxr-client-android/src/lib.rs:136-136 | After a panic, the rest of the batch has no effect. |
| Lifecycle.DrainInvariants | alvr/openxr-client/alxr-client-android/src/lib.rs:131-166 | Over a whole batch, both latches are kept, the properties are untouched and only event calls are made. With no session, none of them is a session call. |
| Lifecycle.DrainFlags | alvr/openxr-client/alxr-client-android/src/lib.rs:131-166 | Without a panic, after a batch each latch holds iff it held before or the batch delivered its event. |
| Lifecycle.DrainWithWindowNeverPanics | alvr/openxr-client/alxr-client-android/src/lib.rs:135-136 | While the native window exists, event handling never panics. |
| Lifecycle.PauseThenResume | alvr/openxr-client/alxr-client-android/src/lib.rs:113-129 | With a session, a pause then a resume makes exactly `Shutdown, OnPause, ReleaseWifi, AcquireWifi, OnResume, InitConnections`. The release comes before the acquire, and there is no re-`Init`. The state is the original with `resumed` set. |
| Lifecycle.Wait | alvr/openxr-client/alxr-client-android/src/lib.rs:170-176 | `wait_until_window_init`: poll while neither latch is set. Its properties are stated by `WaitInvariants`, `WaitStopsAfterLatch`, `WaitCalls` and `WaitFlagsComeFromEvents`. |
| Lifecycle.WaitInvariants | alvr/openxr-client/alxr-client-android/src/lib.rs:170-176 | The wait stops only with destroy requested, the window initialised, a panic or the polls used up. It keeps both latches, leaves the properties alone, and leaves a suffix of the polls. How soon it stops is `WaitStopsAfterLatch`. |
| Lifecycle.WaitStopsAfterLatch | alvr/openxr-client/alxr-client-android/src/lib.rs:171-176 | When poll `k` delivers `InitWindow` or `Destroy`, the wait uses at most `k + 1` polls: it stops in the poll that sets a latch. |
| Lifecycle.WaitCalls | alvr/openxr-client/alxr-client-android/src/lib.rs:170-176 | The wait extends the calls with event calls only. While there is no session, these are session-free. |
| Lifecycle.WaitFlagsComeFromEvents | alvr/openxr-client/alxr-client-android/src/lib.rs:171-176 | The wait sets a latch only if one of the polls it actually used delivered that latch's event. Polls it left unread never count. |
| Lifecycle.Loop | alvr/openxr-client/alxr-client-android/src/lib.rs:275-286 | The run loop: while destroy is not requested, drain the pending events, then process one frame, stopping after a frame that asks to exit. Its properties are stated by the `Loop…` lemmas below. |
| Lifecycle.LoopCalls | alvr/openxr-client/alxr-client-android/src/lib.rs:275-286 | The run loop extends the calls with event calls and `ProcessFrame` only. |
| Lifecycle.LoopFrameCount | alvr/openxr-client/alxr-client-android/src/lib.rs:275-286 | One `ProcessFrame` per frame result used. The unused results are a suffix. |
| Lifecycle.LoopExitReason | alvr/openxr-client/alxr-client-android/src/lib.rs:275-286 | Every frame used except the last said continue. `EngineExit` holds iff the last frame used asked to exit. `DestroyRequested` holds only with the flag set. How soon a `Destroy` stops the loop is `LoopStopsAfterDestroy`. |
| Lifecycle.LoopStopsAfterDestroy | alvr/openxr-client/alxr-client-android/src/lib.rs:275-283 | When poll `k` of the loop delivers `Destroy`, at most `k + 1` frames are processed: the loop stops at the check after that poll. |
| Lifecycle.LoopState | alvr/openxr-client/alxr-client-android/src/lib.rs:275-286 | The loop keeps both latches and the stored properties. It stops for destroy only if the flag was already set, or if a poll it drained before one of the frames it used delivered `Destroy`. |
| Lifecycle.LoopDestroyInDrainedPoll | alvr/openxr-client/alxr-client-android/src/lib.rs:275-283 | A loop entered with the destroy flag clear stops for destroy only after `Destroy` arrived in one of the polls it drained. It drains one poll per `ProcessFrame` it adds. |
| Lifecycle.LoopNoDestroy | alvr/openxr-client/alxr-client-android/src/lib.rs:275-286 | The loop itself never calls `Destroy`. |
| Lifecycle.EyeWidth | alvr/openxr-client/alxr-client-android/src/lib.rs:266-266 | `(width / 2) as u32`: half the width for a non-negative width. A negative width gives its truncated half wrapped modulo 2^32. |
| Lifecycle.PreferredEyeSize | alvr/openxr-client/alxr-client-android/src/lib.rs:266-270 | For non-negative sizes, the recommended eye size becomes half the window width and the full window height. Negative sizes wrap as `as u32`: the width to its truncated half modulo 2^32, the height to 2^32 plus the height. The other properties are kept. |
| Lifecycle.SessionPhase | alvr/openxr-client/alxr-client-android/src/lib.rs:254-290 | `run` from `alxr_init` on: init, and on success override the eye size, connect, run the loop, then shut down and destroy. Its properties are stated by `SessionInitOnce` and `SessionTeardown`. |
| Lifecycle.RunSpec | alvr/openxr-client/alxr-client-android/src/lib.rs:188-291 | `run` as a whole: start-up, the wait, the window check, then `SessionPhase`. Its properties are stated by the `Run…` lemmas below. |
| Lifecycle.RunBeforeInit | alvr/openxr-client/alxr-client-android/src/lib.rs:199-209 | Before `alxr_init` there are only session-free event calls and no session. A run that does not reach init makes no `Init` call. |
| Lifecycle.SessionInitOnce | alvr/openxr-client/alxr-client-android/src/lib.rs:213-257 | From init on, the calls continue those of the wait with one `Init` and no later `Init`. |
| Lifecycle.RunInitOnce | alvr/openxr-client/alxr-client-android/src/lib.rs:206-257 | `Init` is called at most once. It is called only if one of the polls the wait used before it delivered `InitWindow`, and only after session-free event calls. |
| Lifecycle.RunInitFailure | alvr/openxr-client/alxr-client-android/src/lib.rs:254-257 | The outcome is `InitFailed` iff `Init` was called and failed. Then there is no session, no session call, and no `ProcessFrame` or `Destroy`. |
| Lifecycle.RunEyeSizeOverride | alvr/openxr-client/alxr-client-android/src/lib.rs:266-273 | Once the loop was entered, the stored properties are the engine's with the window-derived eye size. `InitConnections` with exactly them directly follows `Init`. |
| Lifecycle.SessionTeardown | alvr/openxr-client/alxr-client-android/src/lib.rs:275-290 | After init, a finished session ends with `Shutdown` then its only `Destroy`, and the exit reason holds. Other outcomes make no `Destroy`. |
| Lifecycle.SessionDestroyComesFromEvent | alvr/openxr-client/alxr-client-android/src/lib.rs:275-290 | After init, a session that finishes for destroy found `Destroy` in one of the polls left by the wait, among the first *n*, where *n* is its number of `ProcessFrame` calls. |
| Lifecycle.RunTeardown | alvr/openxr-client/alxr-client-android/src/lib.rs:288-289 | A finished run ends with `Shutdown, Destroy`, the run's only `Destroy`, with at least one frame processed on engine exit. A finish for destroy needs a `Destroy` in one of the polls the run loop drained: one after the wait's polls, and among the first *n* of them, where *n* is the number of `ProcessFrame` calls. Other outcomes never call `Destroy`. |
| Lifecycle.WaitForWindow | alvr/openxr-client/alxr-client-android/src/lib.rs:170-176 | A first poll that delivers only `InitWindow` ends the wait at once, with no calls and the rest of the polls left. |
| Lifecycle.LoopPauseThenExit | alvr/openxr-client/alxr-client-android/src/lib.rs:275-286 | A loop whose only poll is a `Pause` and whose first frame asks to exit makes the pause's calls, then one `ProcessFrame`, and exits. |
| Lifecycle.LoopDestroyThenCheck | alvr/openxr-client/alxr-client-android/src/lib.rs:275-283 | A loop iteration that drains a `Destroy` still processes its frame. The next check stops the loop with `DestroyRequested`. |
| Lifecycle.SessionPauseThenExit | alvr/openxr-client/alxr-client-android/src/lib.rs:259-290 | A session with only a `Pause` event and an exit frame makes `Init, InitConnections, Shutdown, OnPause, ReleaseWifi, ProcessFrame, Shutdown, Destroy`. |
| Lifecycle.RunPauseInSession | alvr/openxr-client/alxr-client-android/src/lib.rs:113-117 | A run with a pause during the session makes two `Shutdown` calls. The complete call list is given. |
| Lifecycle.RunDestroyInSession | alvr/openxr-client/alxr-client-android/src/lib.rs:275-283 | A destroy drained in the loop is followed by one more `ProcessFrame` before teardown. The complete call list is given. |
| Common.AsU32 | alvr/openxr-client/alxr-client-android/src/lib.rs:42-42 | `as u32` keeps the value in range and otherwise wraps modulo 2^32. |
| Common.TruncHalfRoundsTowardZero | alvr/openxr-client/alxr-client-android/src/lib.rs:266-266 | Rust's `/ 2` rounds toward zero: the half never has the opposite sign to the value, and twice it is within one of the value on the side of zero. |
| DeviceInfo.GetVersionHelper | alvr/openxr-client/alxr-client-android/src/lib.rs:35-50 | Some iff the property parses. The result then has three slots. Slot i is the numeric part at i cast to u32, or 0 when that part is missing or not numeric. |
| DeviceInfo.GetFirmwareVersion | alvr/openxr-client/alxr-client-android/src/lib.rs:52-59 | `ID` is tried first, and `DISPLAY` is read only if `ID` does not parse. Neither parsing gives 0.0.0. The result is exactly `FirmwareVersionOf`. |
| DeviceInfo.FirmwareVersionOf | alvr/openxr-client/alxr-client-android/src/lib.rs:52-59 | The reference definition: the version from `ID` if it parses, else from `DISPLAY` if that parses, else 0.0.0. `GetFirmwareVersion` is proved equal to it. |
| DeviceInfo.VersionOfExamples | alvr/openxr-client/alxr-client-android/src/lib.rs:39-45 | Worked cases: "12.3.1" gives 12.3.1; extra parts are ignored; missing or textual parts give 0; values wrap to 32 bits. |
| DeviceInfo.Contains | alvr/openxr-client/alxr-client-android/src/lib.rs:84-84 | `str::contains`: true iff the needle occurs at some position. |
| DeviceInfo.IsDevice | alvr/openxr-client/alxr-client-android/src/lib.rs:78-89 | True iff the lower-cased name occurs in the lower-cased model, device or manufacturer name. All three names are read, whatever the outcome. |
| BuildConfig.AndroidAbiName | alvr/openxr-client/alxr-engine-sys/build.rs:24-34 | Aarch64 maps to arm64-v8a, Armv7a/Armv7 to armeabi-v7a, X86_64 to x86_64 and X86_32 to x86, each both ways. Every other architecture maps to None. |
| BuildConfig.IsAndroidEnv | alvr/openxr-client/alxr-engine-sys/build.rs:36-41 | True exactly for the Android and Androideabi environments. |
| BuildConfig.IsFeatureEnabled | alvr/openxr-client/alxr-engine-sys/build.rs:43-46 | A feature counts as enabled when some environment variable has exactly its name, whatever the value. `CmakeOptionFromFeature` and `ProductFlavourOf` are stated through it. |
| BuildConfig.CmakeOptionFromBool | alvr/openxr-client/alxr-engine-sys/build.rs:48-54 | "ON" iff the flag, "OFF" iff not. CMake reads the string back as the flag. |
| BuildConfig.CmakeOptionFromFeature | alvr/openxr-client/alxr-engine-sys/build.rs:43-58 | "ON" exactly when the feature variable is set, whatever its value. |
| BuildConfig.ProductFlavourOf | alvr/openxr-client/alxr-engine-sys/build.rs:60-71 | Always one of the two Gradle names. Pico iff the Pico feature is on and the Generic feature is off. |
| BuildConfig.GetProductFlavour | alvr/openxr-client/alxr-engine-sys/build.rs:63-71 | The loop returns the Gradle name of the first enabled flavour feature, Generic before Pico, and Generic when none is enabled. |
| BuildConfig.CmakeGenerator | alvr/openxr-client/alxr-engine-sys/build.rs:145-158 | `ALXR_CMAKE_GEN` when it is set and non-empty, otherwise Ninja. Never empty, so the assertion holds. |
| BuildConfig.EntriesConcat | alvr/openxr-client/alxr-engine-sys/build.rs:16-16 | Joining two CMake lists with `;` concatenates their entries. |
| BuildConfig.MakeFfmpegPkgConfigPath | alvr/openxr-client/alxr-engine-sys/build.rs:11-22 | With bundled ffmpeg on Linux and a non-empty install path, the result is that path, followed by the entries of `CMAKE_PREFIX_PATH` when it is set. Otherwise the result is `CMAKE_PREFIX_PATH`, or empty. |
| BuildConfig.Extension | alvr/openxr-client/alxr-engine-sys/build.rs:137-137 | `Path::extension`: None iff the name is `..` or has no dot after its first character. Otherwise it is the dot-free text after the last dot. |
| BuildConfig.KeepPath | alvr/openxr-client/alxr-engine-sys/build.rs:130-141 | The filter as written: the path ends with one of the two file names, or its file name has one of the listed extensions. `KeepPathByLastComponent` states what it means. |
| BuildConfig.KeepPathByLastComponent | alvr/openxr-client/alxr-engine-sys/build.rs:130-141 | A path is kept iff its last component is a normal name that is one of the two file names or has one of the 14 extensions. |
| BuildConfig.KeepPathKept | alvr/openxr-client/alxr-engine-sys/build.rs:104-141 | `src/a.cpp` and `./CMakeLists.txt` are kept. |
| BuildConfig.KeepPathHiddenFile | alvr/openxr-client/alxr-engine-sys/build.rs:137-140 | The hidden file `.h` has no extension and is not kept. |
| BuildConfig.KeepPathRejected | alvr/openxr-client/alxr-engine-sys/build.rs:137-140 | `a.H` is not kept, because extensions are case-sensitive. A path ending in `..` is not kept. |
| BuildConfig.TrackedPaths | alvr/openxr-client/alxr-engine-sys/build.rs:125-143 | Only filtered paths are kept, and each kept path keeps every occurrence. |
| BuildConfig.CmakeConfig.constructor | alvr/openxr-client/alxr-engine-sys/build.rs:156-156 | The builder starts with the engine source directory and nothing else set. |
| BuildConfig.CmakeConfig.Generator | alvr/openxr-client/alxr-engine-sys/build.rs:159-159 | Sets the generator only. |
| BuildConfig.CmakeConfig.BuildTarget | alvr/openxr-client/alxr-engine-sys/build.rs:185-185 | Sets the build target only. |
| BuildConfig.CmakeConfig.Define | alvr/openxr-client/alxr-engine-sys/build.rs:170-170 | Appends one definition. |
| BuildConfig.CmakeConfig.SetEnv | alvr/openxr-client/alxr-engine-sys/build.rs:75-75 | Appends one environment setting. |
| BuildConfig.CmakeConfig.DefineAll | alvr/openxr-client/alxr-engine-sys/build.rs:213-223 | A chain of `define` calls appends its definitions in order. |
| BuildConfig.DefineWindowsStore | alvr/openxr-client/alxr-engine-sys/build.rs:73-79 | Both Windows Store settings are appended as environment and as definitions. |
| BuildConfig.DefineLoader | alvr/openxr-client/alxr-engine-sys/build.rs:190-199 | Appends the flavour's loader definitions. |
| BuildConfig.DefineInstallDirs | alvr/openxr-client/alxr-engine-sys/build.rs:201-206 | Appends the include and lib install directories under the output directory unless the host is Windows. |
| BuildConfig.ConfigureAndroid | alvr/openxr-client/alxr-engine-sys/build.rs:183-232 | Panics exactly as `ConfigError` says. Otherwise it appends the Android definitions and sets `install/strip` for a release Ninja build. |
| BuildConfig.Configure | alvr/openxr-client/alxr-engine-sys/build.rs:95-241 | Panics exactly as `ConfigError` says. Otherwise the builder holds exactly `ConfigSpec`. |
| BuildConfig.ConfigSpec | alvr/openxr-client/alxr-engine-sys/build.rs:156-241 | The configuration a successful run builds: source directory, generator, build target, definitions and environment. Its properties are stated by the `Config…` lemmas below. |
| BuildConfig.ConfigErrors | alvr/openxr-client/alxr-engine-sys/build.rs:95-210 | Each panic occurs iff its condition holds, in source order. A non-Android target with the right project directory never panics. |
| BuildConfig.FlavourLookup | alvr/openxr-client/alxr-engine-sys/build.rs:190-199 | Pico gives BUILD_LOADER=OFF and USE_PICO_MOBILE_LOADER=ON. Any other flavour gives only BUILD_LOADER=ON. |
| BuildConfig.NdkLookup | alvr/openxr-client/alxr-engine-sys/build.rs:213-223 | The value of each NDK variable. |
| BuildConfig.ConfigGenerator | alvr/openxr-client/alxr-engine-sys/build.rs:157-166 | The generator is set, non-empty, iff the vendor is not UWP. A UWP target instead gets the Windows Store system name. |
| BuildConfig.ConfigInstallStrip | alvr/openxr-client/alxr-engine-sys/build.rs:183-186 | `install/strip` iff Android, release profile and Ninja. Otherwise no build target. |
| BuildConfig.ConfigLoader | alvr/openxr-client/alxr-engine-sys/build.rs:190-237 | The loader values CMake sees: the Pico loader only for an Android Pico build, otherwise BUILD_LOADER=ON. |
| BuildConfig.ConfigPrefixPath | alvr/openxr-client/alxr-engine-sys/build.rs:234-240 | A non-Android build gets the computed prefix path and the CUDA option. An Android build gets neither. |
| BuildConfig.ConfigAndroidToolchain | alvr/openxr-client/alxr-engine-sys/build.rs:208-220 | An Android build gets its ABI under both names, the NDK from `ANDROID_NDK_HOME`, its toolchain file and android-29. |
| BuildConfig.BindgenPlatformDefine | alvr/openxr-client/alxr-engine-sys/build.rs:243-247 | The Android platform define iff an Android target, otherwise empty. |
| BuildConfig.RerunAll | alvr/openxr-client/alxr-engine-sys/build.rs:315-317 | One rerun line per tracked path, in order. |
| BuildConfig.RerunAllCount | alvr/openxr-client/alxr-engine-sys/build.rs:315-317 | A path gets as many rerun lines as it is tracked. |
| BuildConfig.EmitDirectives | alvr/openxr-client/alxr-engine-sys/build.rs:300-323 | The printed directives are exactly `DirectivesOf`. |
| BuildConfig.DirectivesLinkLibs | alvr/openxr-client/alxr-engine-sys/build.rs:300-313 | The search directories come first. `openxr_loader` is linked iff the target is not Windows, `alxr_engine` always, and nothing else. |
| BuildConfig.DirectivesRerunPaths | alvr/openxr-client/alxr-engine-sys/build.rs:315-320 | A path gets a rerun line iff it is tracked or is the binding header. |
| BuildConfig.DirectivesBindingCount | alvr/openxr-client/alxr-engine-sys/build.rs:318-320 | The binding header gets one line if untracked, otherwise as many as it is tracked. |
| BuildConfig.BindingFileKept | alvr/openxr-client/alxr-engine-sys/build.rs:249-249 | The header `cpp/ALVR-OpenXR-Engine/src/alxr_engine/alxr_engine.h` under the project directory is a `.h` file, so the walk filter keeps it. |
| BuildConfig.DirectivesForWalkedHeader | alvr/openxr-client/alxr-engine-sys/build.rs:318-320 | With the header the script computes and the paths the walk keeps, the header gets one rerun line per time the walk lists it, and exactly one line when the walk does not list it. |
| BuildConfig.DirectivesRerunEnv | alvr/openxr-client/alxr-engine-sys/build.rs:321-323 | Each of the two monitored variables gets exactly one rerun line, and no other variable gets one. |

## Left out

- Process startup is the single flag `startupOk`. This covers the JNI plumbing, the loader library, VM attachment and the permission check. These are foreign calls with no logic of their own.
- The poll timeouts of 100 ms and 0 ms are not modelled: a poll delivers its given batch. Time is not modelled.
- The event and frame inputs are finite. The model adds the outcomes `EventsUsedUp` and `RunFramesUsedUp` where the source would keep polling.
- The native window is one input for the whole run. Its appearing or disappearing mid-run is not modelled.
- The init descriptor keeps only its two computed fields: sRGB linearisation and the firmware version. The other fields are copied from configuration or are callback pointers.
- The engine calls are opaque trace entries, and the engine's internals are not part of this model. `request_restart` is ignored, as it is in the source.
- DeviceInfo.IsDevice: lower-casing is ASCII-only. Rust's `to_lowercase` also folds non-ASCII letters.
- The version parser `version_compare::Version::from` and the build-property lookup are abstract function inputs.
- Logging and `println!` formatting are not modelled. Directives are returned as values rather than printed text.
- Not modelled in build.rs:
  - running CMake and bindgen;
  - `always_configure`;
  - the compiler flags;
  - the directory walk itself, whose entries are an input;
  - the Windows `.cso` copy;
  - parsing the target triples and reading `TARGET`, `HOST`, `PROFILE`, `OUT_DIR` and `CARGO_MANIFEST_DIR`, whose failure is a panic before any decision.
- Environment values are strings. `env::var` failing on a non-Unicode value is not modelled.
- BuildConfig.TrackedPaths: states membership and multiplicity of the kept paths, but not that their order is preserved.
- BuildConfig.Configure: on a panic, the contract says which panic occurs but not what the builder holds at that point.
- `openvr_math.h` is floating-point matrix and quaternion arithmetic. It is not part of this model.
