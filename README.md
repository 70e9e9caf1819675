# react-native-sound, modelled in Dafny

react-native-sound plays audio files from a React Native application. It has two layers.

**The Android native module** (`RNSoundModule`) keeps a pool of platform media players. Each
player sits under an integer key chosen by the JavaScript side. The module also keeps a pool of
per-key error callbacks and exposes verbs over the bridge: load, play, pause, stop, reset,
release, volume, looping, speed and seeking. It routes players to the music or the alarm
channel and handles audio focus. When the application ends, it drains the pool.

**The JavaScript `Sound` class** wraps one key. It guards every verb by its load state and
forwards calls to the native module. The model covers three revisions of it:

- `src/sound.js`: a Flow source whose status is `unloaded`, `loading` or `loaded`.
- `lib/sound.js`: the compiled form of that source. Its `Sound` class is the same, line for
  line (`lib/sound.js:85-195` against `src/sound.js:73-177`). It adds Android-only statics for
  audio focus and the volume-control stream. One Dafny class, `ModernSound.Sound`, models both
  classes. The rows below cite the Flow source, and the lib-only pieces have their own rows.
- the older `sound.js`: callback-based, with two flags, `isLoading` and `isLoaded`.

The project is organised in modules.

**Shared support:**

- `Wrappers`: `Option`.
- `Text`: the string operations the sources borrow from Java and JavaScript.
  - Java's `String.replace` with an empty replacement.
  - ASCII lower-casing.
  - The replacement `/\.[^.]+$/ -> ""`.
  - Decimal rendering of integers.
- `AndroidApi`: the platform constants the module uses.

**Native side:**

- `AudioOptions`: the pure option and code mappings of `RNSoundModule.java`. These are:
  - the alarm channel;
  - stream type and attributes;
  - the focus gain;
  - the names of focus request results and focus changes.
- `NativeDataSource`: the ordered data-source classifier. It tries, in turn, a raw resource, an
  `asset:/` path, an http(s) URL and a local file.
- `NativeMediaPlayer`: the platform `MediaPlayer`, as the module observes it. It is a class with
  one record of observable state, `Engine`. A `faulted` flag is an abstract source of exceptions: once
  it is set, every engine call except `isLooping` throws, and every verb takes its `catch`
  path. The platform faults a player through `NativeSound.SoundModule.EngineFaulted`.
- `NativeSound`: the module itself, class `SoundModule`.
  - Its fields are `playerPool`, `errorCallbackPool`, `focusRequest`, `afChangeListener` and
    `onAudioFocus`, plus the set of bridge callbacks already invoked, since a bridge callback
    may be invoked only once.
  - Every verb is a method whose contract gives the reply and the new state.
  - The platform's notifications are methods the environment calls: prepared, playback
    completed, error, and focus change.
  - `Valid()` states that no two keys share a player and no key reaches a released player.
    Every verb preserves it.
  - `OthersUnchanged(key)` states that a per-key verb leaves every other key's player as it
    was.

**JavaScript side:**

- `Bridge`:
  - the platform (`Android`, `Ios`, `Windows`);
  - the native calls the JavaScript layers make;
  - how an awaited call settles;
  - the shared volume and loop-count call shapes;
  - the module-wide `keyCounter`.
- `JsDataSource`: `isAbsolutePath`, `isRelativePath`, `isBundledFile`, `parseBundledFileName`
  and `parseDataSource`.
- `ModernSound`: the `Sound` class of `src/sound.js` and `lib/sound.js`, its statics, and
  `PlaybackError`.
- `LegacySound`: the `Sound` class of the older `sound.js`, with `isNumber` and
  `parseLoadResponse`.

Asynchrony is handled as follows:

- A JavaScript method runs up to its first `await` and issues at most one native call, or two
  for `play` with an end callback on Android. It returns the calls it made.
- The way the awaited native call settles is a parameter.
- `load` and `release` continue after their `await`, so each is split in two. `Load` and
  `Release` are the synchronous parts; the ghost counters `pendingLoads` and
  `pendingReleases` record that a continuation is owed. `LoadSettled` and `ReleaseSettled`
  are the continuations, so other calls can come in between.

Inputs that come from the environment are parameters:

- the Android SDK level;
- what the audio manager answers to a focus request;
- which raw resources, assets and files the device holds (`Device`);
- `resolveAssetSource` (`string -> Option<string>`).

Some behaviours of the code are easy to miss; the model keeps them:

- `load` of a missing file rejects but leaves the key mapped to the new, unprepared player.
- A second `load` under the same key does not release the displaced player.
  `NativeSound.SoundModule.Load` states that the displaced player is neither released nor
  reachable any more.
- In the current JavaScript revision, `release` sets the status to `unloaded` only after the
  native release resolves. A rejected release leaves the status unchanged.
- The continuation of `load` sets the status to `loaded` whatever the status is when it
  resumes, even after a `release` in between.

`types/sound.d.ts` declares the focus-change name `lossTransientMayDuck` (line 4). The native
module reports `lossTransientCanDuck` (`RNSoundModule.java:411`). The model uses the native
name.

## Model

| member | source | states |
|---|---|---|
| Text.RemoveAll | android/src/main/java/com/zmxv/RNSound/RNSoundModule.java:156 | Java's `replace(target, "")` never lengthens the string; `RemoveAllIdentity` and `RemoveAllLeadingTarget` say what it removes |
| Text.ToLower | src/sound.js:15 | lower-casing keeps the length and leaves no upper-case ASCII letter |
| Text.StripExtension | src/sound.js:15 | `/\.[^.]+$/ -> ""` yields a prefix of its input; `StripExtensionRemovesLastExtension` says which prefix |
| Text.IntToString | lib/sound.js:207 | the rendering is non-empty, starts with `-` exactly for a negative integer, and is digits after that; it is JavaScript's text for every integer below 10^21 in magnitude |
| Text.RemoveAllIdentity | android/src/main/java/com/zmxv/RNSound/RNSoundModule.java:155-159 | Java's `replace(target, "")` leaves a string unchanged exactly when the target does not occur in it |
| Text.RemoveAllLeadingTarget | android/src/main/java/com/zmxv/RNSound/RNSoundModule.java:156 | removing `t` from `t + x` gives `x` whenever `x` contains no `t` |
| Text.LastIndexOf | src/sound.js:15 | the result is the position of the last occurrence of the character; it is absent exactly when the character does not occur |
| Text.ToLowerHasNoUpper | src/sound.js:15 | lower-casing keeps the length and leaves no upper-case letter |
| Text.StripExtensionRemovesLastExtension | src/sound.js:15 | `/\.[^.]+$/ -> ""` yields a prefix of the input; it changes nothing exactly when there is no dot or the string ends in a dot; otherwise it removes a dot followed by one or more dot-free characters |
| Text.LastIndexOfLower | src/sound.js:15 | lower-casing does not move the last dot |
| Text.StripExtensionLowerCommute | src/sound.js:15 | lower-casing and then stripping the extension is the same as stripping and then lower-casing |
| Text.NatToString | lib/sound.js:207 | the decimal rendering of a natural number is non-empty and made of digits only |
| Text.NatToStringRoundTrip | lib/sound.js:207 | the digits read back to the number rendered |
| Text.IntToStringRoundTrip | lib/sound.js:207 | the signed decimal rendering of an integer parses back to that integer |
| AudioOptions.UseAlarmChannel | android/src/main/java/com/zmxv/RNSound/RNSoundModule.java:129-131 | the alarm channel is asked for exactly when the key is present with the value true; an absent key means false |
| AudioOptions.AudioStreamType | android/src/main/java/com/zmxv/RNSound/RNSoundModule.java:129-136 | the stream is the alarm stream exactly when `useAlarmChannel` is present and true, and the music stream otherwise |
| AudioOptions.GetAudioAttributes | android/src/main/java/com/zmxv/RNSound/RNSoundModule.java:122-127 | the usage is alarm exactly when the alarm channel is asked for, and media otherwise; the content type is always music |
| AudioOptions.ApplyAudioOptions | android/src/main/java/com/zmxv/RNSound/RNSoundModule.java:114-120 | a stream type is used exactly below Lollipop, and attributes from Lollipop on |
| AudioOptions.AlarmRoutingAgrees | android/src/main/java/com/zmxv/RNSound/RNSoundModule.java:114-136 | at every SDK level, the player is routed to the alarm channel exactly when `useAlarmChannel` is true |
| AudioOptions.AudioFocusType | android/src/main/java/com/zmxv/RNSound/RNSoundModule.java:391-401 | corrected mapping that compares text. An absent or unrecognised `audioFocusType` asks for `AUDIOFOCUS_GAIN`. The result is always one of the four gains. Before KitKat, an exclusive gain is never requested, and `gainTransientExclusive` asks for `AUDIOFOCUS_GAIN_TRANSIENT` |
| AudioOptions.AudioFocusTypeRoundTrip | android/src/main/java/com/zmxv/RNSound/RNSoundModule.java:391-401 | at every SDK level, the option name of each gain selects exactly that gain; the one exception is the exclusive gain before KitKat |
| AudioOptions.AudioFocusTypeAsWritten | android/src/main/java/com/zmxv/RNSound/RNSoundModule.java:391-401 | the mapping as written, with reference comparison; it still yields one of the four gains |
| AudioOptions.AsWrittenIgnoresBridgeStrings | android/src/main/java/com/zmxv/RNSound/RNSoundModule.java:391-401 | with a string built at run time, which is not interned, the mapping as written always asks for `AUDIOFOCUS_GAIN` |
| AudioOptions.AsWrittenDiffersOnGainTransient | android/src/main/java/com/zmxv/RNSound/RNSoundModule.java:394 | the witness `"gainTransient"` on Android O: `AUDIOFOCUS_GAIN` as written, `AUDIOFOCUS_GAIN_TRANSIENT` as intended |
| AudioOptions.AsWrittenAgreesOnInternedStrings | android/src/main/java/com/zmxv/RNSound/RNSoundModule.java:391-401 | for interned strings, the mapping as written and the corrected mapping coincide |
| AudioOptions.FocusRequestResult | android/src/main/java/com/zmxv/RNSound/RNSoundModule.java:363-389 | the reply is exactly one of "granted", "delayed" or "failed". It is "granted" exactly when the request was granted. It is "delayed" exactly when, from Android O on, the grant was delayed |
| AudioOptions.FocusChangeName | android/src/main/java/com/zmxv/RNSound/RNSoundModule.java:406-412 | a focus change gets a name exactly when its code is one of the four known codes; any other code is reported as null |
| AudioOptions.FocusChangeNameRoundTrip | android/src/main/java/com/zmxv/RNSound/RNSoundModule.java:406-412 | the four names are distinct: each name gives its code back |
| NativeDataSource.Classify | android/src/main/java/com/zmxv/RNSound/RNSoundModule.java:138-173 | A raw resource URI comes exactly from a known raw resource name. The other kinds come in order. Outside raw resources, an `asset:/` source is accepted exactly when its asset exists, and any other source exactly when it is a URL or an existing file. An asset comes only from an `asset:/` prefix, with every `asset:/` removed. A URL comes only from a one-line http(s) string. A local file comes only when nothing earlier matched and the file exists. A missing asset or file is the error, with the source's message |
| NativeDataSource.BundledWinsOverFile | android/src/main/java/com/zmxv/RNSound/RNSoundModule.java:139 | a raw resource wins over a file of the same name |
| NativeDataSource.AssetRoundTrip | android/src/main/java/com/zmxv/RNSound/RNSoundModule.java:155-159 | `asset:/` followed by a path opens exactly that path, or fails because that asset is missing |
| NativeDataSource.ClassifyFailsOnlyOnMissingContent | android/src/main/java/com/zmxv/RNSound/RNSoundModule.java:165-172 | past the resource and asset rules, classification fails exactly when the string is not a URL and no such file exists |
| NativeDataSource.AbsolutePathIsLocal | android/src/main/java/com/zmxv/RNSound/RNSoundModule.java:138-173 | a path starting with `/` that is not a resource name is a local file, or the missing-file error |
| NativeSound.SoundModule.Lookup | android/src/main/java/com/zmxv/RNSound/RNSoundModule.java:207 | `playerPool.get(key)` is a player exactly when the key is mapped to one, and null otherwise |
| NativeSound.SoundModule.constructor | android/src/main/java/com/zmxv/RNSound/RNSoundModule.java:37-41 | the module starts with empty pools and no focus state |
| NativeSound.SoundModule.SetErrorCallback | android/src/main/java/com/zmxv/RNSound/RNSoundModule.java:49-57 | the key's error callback is set and nothing else changes |
| NativeSound.SoundModule.Load | android/src/main/java/com/zmxv/RNSound/RNSoundModule.java:59-75 | A fresh player is mapped under the key on every path. It carries the error and prepared listeners and the audio setup. A valid source is set and prepared, and the promise stays pending. A failing source rejects with its error, leaving the unprepared player mapped. A displaced player is neither released nor reachable. `Valid` is kept |
| NativeSound.SoundModule.SetOnCompletionListener | android/src/main/java/com/zmxv/RNSound/RNSoundModule.java:175-186 | the completion listener is attached only to a present player that is not playing; other keys are unchanged |
| NativeSound.SoundModule.Play | android/src/main/java/com/zmxv/RNSound/RNSoundModule.java:204-220 | A missing key is rejected as an undefined player. A present player is started, or left playing if it already was, so playing again does not restart it. An engine fault is rejected |
| NativeSound.SoundModule.Pause | android/src/main/java/com/zmxv/RNSound/RNSoundModule.java:222-233 | a playing player is paused; any other player and a missing key are left alone and resolve |
| NativeSound.SoundModule.Stop | android/src/main/java/com/zmxv/RNSound/RNSoundModule.java:235-249 | A playing player is paused and rewound to 0. A player that is not playing keeps its position. A missing key resolves with no change |
| NativeSound.SoundModule.Reset | android/src/main/java/com/zmxv/RNSound/RNSoundModule.java:251-262 | a present player loses its source, preparation, playback and position; a missing key resolves with no change |
| NativeSound.SoundModule.Release | android/src/main/java/com/zmxv/RNSound/RNSoundModule.java:264-281 | The three listeners are cleared, the player is released and the key is unmapped. Every other key keeps its player and its state. If the release throws, the key stays mapped. A missing key resolves with no change |
| NativeSound.SoundModule.LoadThenRelease | android/src/main/java/com/zmxv/RNSound/RNSoundModule.java:264-281 | After a load and a release of the same key, the key is unmapped. The new player is released, with no listeners. The rest of the pool is as before the load |
| NativeSound.SoundModule.SetVolume | android/src/main/java/com/zmxv/RNSound/RNSoundModule.java:283-294 | a present player takes both channel volumes; a missing key resolves with no change |
| NativeSound.SoundModule.SetLooping | android/src/main/java/com/zmxv/RNSound/RNSoundModule.java:447-458 | a present player takes the looping flag; a missing key resolves with no change |
| NativeSound.SoundModule.SetSpeed | android/src/main/java/com/zmxv/RNSound/RNSoundModule.java:460-471 | a present player takes the speed; once prepared, speed 0 pauses it and any other speed runs it; a missing key resolves with no change |
| NativeSound.SoundModule.SetCurrentMillis | android/src/main/java/com/zmxv/RNSound/RNSoundModule.java:473-484 | a present player seeks to the position; a missing key resolves with no change |
| NativeSound.SoundModule.GetCurrentMillis | android/src/main/java/com/zmxv/RNSound/RNSoundModule.java:486-497 | the reply is the player's position, -1 for a missing key, or a rejection on an engine fault |
| NativeSound.SoundModule.IsPlaying | android/src/main/java/com/zmxv/RNSound/RNSoundModule.java:499-510 | the reply is whether the player plays, false for a missing key, or a rejection on an engine fault |
| NativeSound.SoundModule.Prepared | android/src/main/java/com/zmxv/RNSound/RNSoundModule.java:97-112 | when preparation finishes, the attached prepared listener resolves the load's promise with the duration, or rejects it if reading the duration throws |
| NativeSound.SoundModule.Dispatch | android/src/main/java/com/zmxv/RNSound/RNSoundModule.java:192-197 | a bridge callback reaches JavaScript only the first time it is invoked; the callback is marked used either way, and nothing else changes |
| NativeSound.SoundModule.PlaybackEnded | android/src/main/java/com/zmxv/RNSound/RNSoundModule.java:188-202 | A looping player keeps playing, and its callback is not invoked. Otherwise playback stops and the completion callback is invoked. A second invocation of the same callback is swallowed |
| NativeSound.SoundModule.EngineError | android/src/main/java/com/zmxv/RNSound/RNSoundModule.java:77-95 | The error reaches the callback registered for the listener's key, with `what` and `extra`, unless that callback has been used. It is reported handled whenever the listener is attached |
| NativeSound.SoundModule.GetAudioFocusListener | android/src/main/java/com/zmxv/RNSound/RNSoundModule.java:403-418 | the focus-change listener is created on first use and the same object is returned afterwards |
| NativeSound.SoundModule.RequestAudioFocus | android/src/main/java/com/zmxv/RNSound/RNSoundModule.java:362-389 | The gain is the corrected `AudioFocusType`, which compares text (see Findings), not the mapping as written. Below Android O, the module requests with the shared listener, the stream type and the gain. From O on, it stores and sends a request made of the gain, the attributes and the listener. It replies with the result's name |
| NativeSound.SoundModule.SetAudioFocusListener | android/src/main/java/com/zmxv/RNSound/RNSoundModule.java:420-428 | the focus callback is set and nothing else changes |
| NativeSound.SoundModule.AbandonAudioFocus | android/src/main/java/com/zmxv/RNSound/RNSoundModule.java:430-445 | Below Android O, focus is abandoned through the shared listener. From O on, it is abandoned through the stored request, if there is one. The stored request is kept |
| NativeSound.SoundModule.OnAudioFocusChange | android/src/main/java/com/zmxv/RNSound/RNSoundModule.java:406-415 | the change is forwarded, with its name, only when a focus callback is set; a second invocation of that callback raises |
| NativeSound.SoundModule.TearDown | android/src/main/java/com/zmxv/RNSound/RNSoundModule.java:570-581 | Every listener is cleared. Unless the engine throws, the player is stopped if playing, then reset and released |
| NativeSound.SoundModule.OnCatalystInstanceDestroy | android/src/main/java/com/zmxv/RNSound/RNSoundModule.java:563-583 | Every non-null player in the pool is torn down. A throwing player does not stop the others. The pool ends empty, and the callbacks and focus state stay |
| Bridge.KeyCounter.Next | src/sound.js:74 | the key is one more than the counter, which is advanced; it is greater than, and so different from, every key issued before |
| JsDataSource.IsAbsolutePath | src/sound.js:11 | `isAbsolutePath` holds for a path starting with `/`, `http`, `https` or `asset`; `AbsolutePathPrefixes` shows the `https` case is redundant |
| JsDataSource.IsRelativePath | sound.js:10 | the older `isRelativePath` is the negation of the same pattern test |
| JsDataSource.IsBundledFile | src/sound.js:13 | a bundled file is a name that is not absolute, on Android only |
| JsDataSource.AbsolutePathPrefixes | src/sound.js:11 | the absolute-path pattern holds exactly for strings starting with `/`, `http` or `asset`; its `https` alternative adds nothing |
| JsDataSource.LegacyBundledTestAgrees | sound.js:10-12 | the older `IS_ANDROID && isRelativePath(name)` is the current `isBundledFile` |
| JsDataSource.ParseBundledFileName | src/sound.js:15 | the raw resource name has no upper-case letter, is no longer than the file name, and equals the lower-cased name with its extension stripped |
| JsDataSource.ParseDataSource | src/sound.js:17-23 | the data source sent to the native `load`; `ParseDataSourceIndependence`, `ParseDataSourceKeepsName` and `NoRewriteOffAndroid` state its rules |
| JsDataSource.ParseDataSourceIndependence | src/sound.js:17-23 | when the name resolves as a bundled asset, the result depends on neither the platform nor the path. An empty path acts as no path. When a non-empty path is given, the platform makes no difference |
| JsDataSource.ParseDataSourceKeepsName | src/sound.js:20-22 | outside the asset and resource-name cases, the result ends with the file name; with a path, it is the path, a `/`, then the name |
| JsDataSource.NoRewriteOffAndroid | src/sound.js:13-22 | off Android, the result is the name, the joined path, or the asset URI; a name is never lower-cased there |
| JsDataSource.BundledNameShape | src/sound.js:15 | the resource name is the lower-cased name, or that name less a final `.` and a non-empty, dot-free extension |
| ModernSound.Sound.constructor | src/sound.js:73-86 | the sound takes the next key, strictly above all earlier keys, and starts unloaded with duration and channels -1, 0 loops, volume 1, pan 0 and speed 1 |
| ModernSound.Sound.Initialize | src/sound.js:78-86 | the status is `unloaded` and every setting is back at its default |
| ModernSound.Sound.IsLoaded | src/sound.js:88-90 | `isLoaded` holds exactly when the status is `loaded` |
| ModernSound.Sound.Load | src/sound.js:96-101 | A load is started exactly when the status is `unloaded`. A refused load issues no call and changes nothing. A started one resets the settings, sets `loading` and sends the parsed data source |
| ModernSound.Sound.LoadSettled | src/sound.js:101-105 | A fulfilled load sets `loaded` and takes only truthy `duration` and `numberOfChannels`; other fields keep their values. A rejected one changes nothing and rejects |
| ModernSound.LoadToCompletion | src/sound.js:96-105 | A load from `unloaded` that the native side fulfils sends the parsed data source and ends `loaded`. The duration and channel count are the response's truthy values, or else -1. The other settings are back at their defaults |
| ModernSound.Sound.Play | src/sound.js:108-116 | When not loaded, it resolves false with no native call. When loaded, it attaches the end callback first (Android only), then plays, and resolves true unless play rejects |
| ModernSound.Sound.Pause | src/sound.js:118-120 | the native pause is issued only when loaded |
| ModernSound.Sound.Stop | src/sound.js:122-124 | the native stop is issued only when loaded |
| ModernSound.Sound.Reset | src/sound.js:126-128 | the native reset is issued only when loaded on Android |
| ModernSound.Sound.Release | src/sound.js:130-132 | When the status is `unloaded`, it stays so and no native call is made. Otherwise the native release is issued, the status and settings are left as they are, and a continuation is owed |
| ModernSound.Sound.ReleaseSettled | src/sound.js:131-132 | Once the native release settles, a fulfilled release sets `unloaded`, whatever the status is by then. A rejected one leaves the status and rejects. The settings are kept |
| ModernSound.ReleaseWhileLoading | src/sound.js:96-132 | A release issued while loading, whose reply comes after the load's: a second load meanwhile is refused, the load's continuation sets `loaded`, and the release's continuation leaves the sound `unloaded` |
| ModernSound.Sound.SetVolume | src/sound.js:135-141 | the volume is always stored and is forwarded only when loaded, in the platform's shape |
| ModernSound.Sound.SetPan | src/sound.js:143-146 | the pan is always stored and is forwarded only when loaded |
| ModernSound.Sound.SetNumberOfLoops | src/sound.js:148-154 | the loop count is always stored and is forwarded only when loaded, as `!!value` on Android and Windows |
| ModernSound.Sound.SetSpeed | src/sound.js:156-159 | the speed is always stored and is forwarded only when loaded and not on Windows |
| ModernSound.Sound.GetCurrentMillis | src/sound.js:161-164 | when not loaded, it returns -1 with no native call; when loaded, it returns the native answer |
| ModernSound.Sound.SetCurrentMillis | src/sound.js:166-168 | the seek is forwarded only when loaded |
| ModernSound.Sound.IsPlaying | src/sound.js:174-177 | when not loaded, it returns false with no native call; when loaded, it returns the native answer |
| ModernSound.Sound.SetErrorCallback | src/sound.js:92-94 | exactly on Android, the given error callback is registered under the sound's key |
| ModernSound.Sound.SetSpeakerphoneOn | src/sound.js:170-172 | the speakerphone call is made exactly on Android, whatever the status |
| ModernSound.Clamp | src/sound.js:34-36 | the result lies in [0, 1]. Values in range are kept, values below become 0 and values above become 1 |
| ModernSound.ClampIsNearest | src/sound.js:34-36 | the clamped value is the point of [0, 1] nearest the argument, and clamping is idempotent |
| ModernSound.SetSystemVolume | src/sound.js:34-38 | only Android receives a system volume; the call carries `Clamp(value)`, so below 0 gives 0 and above 1 gives 1, together with the caller's options object |
| ModernSound.AndroidOnly | lib/sound.js:37-59 | an Android-only static issues its native call exactly on Android, unchanged |
| ModernSound.RequestAudioFocus | lib/sound.js:45-47 | exactly on Android, the native `requestAudioFocus` is called with the given options |
| ModernSound.AbandonAudioFocus | lib/sound.js:57-59 | exactly on Android, the native `abandonAudioFocus` is called |
| ModernSound.SetVolumeControlStream | lib/sound.js:37-39 | exactly on Android, the native `setVolumeControlStream` is called with the given options; omitted options become the empty options `{}` |
| ModernSound.ResetVolumeControlStream | lib/sound.js:41-43 | exactly on Android, the native `resetVolumeControlStream` is called |
| ModernSound.RequestAudioFocusResult | lib/sound.js:45-47 | on Android, `requestAudioFocus` settles as the native request does; elsewhere it resolves `undefined` |
| ModernSound.RequestAudioFocusNames | lib/sound.js:45-47 | on Android, a focus request resolves with "granted", "delayed" or "failed" |
| ModernSound.FromErrorData | src/sound.js:186-189 | a `PlaybackError` keeps the native `what` and `extra` |
| ModernSound.ToString | src/sound.js:191-193 | `toString` is `What: <what>, Extra: <extra>`; `PlaybackErrorRoundTrip` shows it names both codes |
| ModernSound.PlaybackErrorRoundTrip | lib/sound.js:206-208 | `toString` renders `What: <what>, Extra: <extra>`, which parses back to the same two codes |
| LegacySound.IsNumber | sound.js:8 | `isNumber` holds exactly for a non-zero number |
| LegacySound.IsNumberExcludesZero | sound.js:8 | a response field fails `isNumber` exactly when it is missing, not a number, or zero |
| LegacySound.Sound.constructor | sound.js:59-62 | the sound takes the next key, strictly above all earlier keys, and starts with both flags clear and default settings |
| LegacySound.Sound.Initialize | sound.js:64-73 | both flags are cleared and every setting is back at its default |
| LegacySound.Sound.Load | sound.js:75-84 | While loading or loaded, nothing happens. Otherwise the settings are reset, only `isLoading` is set, and the native load receives the parsed data source, the key, the options and the error callback, in the legacy argument order. The flags are never both set |
| LegacySound.Sound.ParseLoadResponse | sound.js:86-93 | `duration` and `numberOfChannels` are taken only when they are non-zero numbers in a truthy response; the flags swap to loaded |
| LegacySound.Sound.LoadSucceeded | sound.js:80-83 | the response is parsed, then handed to `onSuccess` if one was given |
| LegacySound.LoadToCompletion | sound.js:75-93 | A load from the unloaded state that succeeds sends the parsed data source, with the key, the options and the error callback, and ends loaded. The duration and channel count are the response's non-zero numbers, or else -1 |
| LegacySound.Sound.Play | sound.js:95-99 | When loaded, it plays. Otherwise it calls `onEnd(false)` at once with no native call. Either way it returns itself |
| LegacySound.Sound.Pause | sound.js:101-104 | the native pause is issued only when loaded, and the sound itself is returned |
| LegacySound.Sound.Stop | sound.js:106-109 | the native stop is issued only when loaded, and the sound itself is returned |
| LegacySound.Sound.Reset | sound.js:111-114 | the native reset is issued only when loaded on Android, and the sound itself is returned |
| LegacySound.Sound.Release | sound.js:116-121 | the native release is issued exactly when loading or loaded; both flags end clear; the sound itself is returned |
| LegacySound.Sound.SetVolume | sound.js:123-130 | the volume is always stored and is forwarded only when loaded; the sound itself is returned |
| LegacySound.Sound.SetPan | sound.js:132-136 | the pan is always stored and is forwarded only when loaded; the sound itself is returned |
| LegacySound.Sound.SetNumberOfLoops | sound.js:138-145 | the loop count is always stored and is forwarded only when loaded; the sound itself is returned |
| LegacySound.Sound.SetSpeed | sound.js:147-151 | the speed is always stored and is forwarded only when loaded and not on Windows; the sound itself is returned |
| LegacySound.Sound.GetCurrentTime | sound.js:153-155 | the position is asked for exactly when loaded; otherwise the callback is never called |
| LegacySound.Sound.SetCurrentTime | sound.js:157-160 | the seek is forwarded only when loaded, and the sound itself is returned |
| LegacySound.Sound.SetSpeakerphoneOn | sound.js:162-164 | the speakerphone call is made exactly on Android |
| LegacySound.SetSystemVolume | sound.js:31-33 | the older revision forwards the system volume unclamped, on Android only |

## Left out

- The platform `MediaPlayer`, `AudioManager`, `AssetManager`, resource table and file system
  are not modelled inside. A player is its observable record. The device is the sets of names
  it knows. The audio manager's answer to a focus request is a parameter.
- Which engine calls throw is abstracted into one `faulted` flag, an abstract source of
  exceptions rather than the platform's error state. The platform sets it with
  `NativeSound.SoundModule.EngineFaulted`. Once it is set, every engine call that the module
  wraps in a `try` throws, `reset()` and `release()` included, so each `catch` path is
  reachable. `isLooping()` is a query the completion listener makes outside its `try`
  (`RNSoundModule.java:192`); it is modelled as never throwing, so an exception escaping the
  listener is not modelled. Listener setters never throw.
- The platform player's own state table is not modelled. Apart from faulting, every engine
  call takes effect in every state: `start()` on a player that is not yet prepared starts it,
  while the platform would reject the call instead.
- `getSystemVolume` and the native `setSystemVolume`
  (`RNSoundModule.java:296-325`). They are floating-point ratios and `Math.round` over the
  platform's maximum volume.
- `setSpeakerphoneOn`, `setMute`, `setVolumeControlStream` and `resetVolumeControlStream` on the
  native side. They change only platform state. The JavaScript calls to them are modelled.
- `getName`, `getConstants` and all logging.
- `synchronized` listeners and threading. Platform notifications are sequential method calls.
- The iteration order of the `HashMap` in `onCatalystInstanceDestroy`. The model visits the
  keys in any order. Each entry is torn down independently of the others.
- The React bridge's promise and callback plumbing. A rejection reason is a string, and a
  bridge callback is an identity.
- `NativeEventEmitter` registration in `addAudioFocusListener` and `removeAudioFocusListener`
  (`lib/sound.js:49-55`).
- The iOS- and Windows-only statics (`setEnabled`, `setActive`, `setMode`, `setCategory`,
  `enableInSilenceMode`). The JavaScript `getSystemVolume` and `setSystemMute` are left out
  too; they are Android-only pass-throughs of the shape `ModernSound.AndroidOnly` states.
- `requestAudioFocus()` called without an argument passes `undefined` to the native side;
  the model always passes an options record, since `ModernSound.RequestAudioFocus` takes one.
- The legacy native `load` receives two closures. The error callback is carried in the call;
  the success closure is modelled by `LegacySound.Sound.LoadSucceeded`, which the platform
  invokes, so the call itself does not carry it.
- Options other than `useAlarmChannel` and `audioFocusType`. The options object is forwarded
  unchanged.
- JavaScript numbers are reals, so NaN is not modelled: `!!NaN` and `isNumber(NaN)` are false
  in JavaScript.
- `what` and `extra` are Java `int`s, so their JavaScript rendering is always plain decimal;
  the exponent form JavaScript uses from 10^21 on is not modelled.
- `toLowerCase` is modelled for ASCII letters only. Unicode case mapping is not modelled.
- `types/sound.d.ts` has type declarations only.

## Findings

| source | as written | input that shows it | evidently intended | confidence | as-written member | corrected member |
|---|---|---|---|---|---|---|
| android/src/main/java/com/zmxv/RNSound/RNSoundModule.java:394-396 | `type == "gainTransient"` and the two comparisons after it compare references. The string read from the options map is built at run time and is not interned, so no comparison succeeds and every request asks for `AUDIOFOCUS_GAIN` | `requestAudioFocus({audioFocusType: "gainTransient"})` on Android O | compare the text (`equals`), so the request asks for `AUDIOFOCUS_GAIN_TRANSIENT` | not executed | AudioOptions.AsWrittenDiffersOnGainTransient | AudioOptions.AudioFocusType |
