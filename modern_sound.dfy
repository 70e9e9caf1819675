/** The promise-based JavaScript `Sound` of the current revision, in its Flow source and in its
    compiled form, which has the same class: a status machine over `unloaded`, `loading` and
    `loaded`, verbs that reach the native module only when loaded, setters that always store,
    the static system calls, and `PlaybackError`. Each asynchronous method runs up to its first
    `await` and issues at most one native call; the way that call settles is a parameter, and a
    method whose code continues after the `await` takes it into account. */
module ModernSound {
  import opened Wrappers
  import opened AndroidApi
  import opened Text
  import opened AudioOptions
  import opened Bridge
  import opened JsDataSource

  datatype Status = Unloaded | Loading | Loaded

  /** The `{duration, numberOfChannels}` object the native `load` resolves with; an absent field
      is `undefined`. */
  datatype LoadResponse = LoadResponse(duration: Option<real>, numberOfChannels: Option<real>)

  /** A field of the response counts only when it is truthy. */
  predicate Given(field: Option<real>) {
    field.Some? && Truthy(field.value)
  }

  const DEFAULT_VOLUME: real := 1.0
  const DEFAULT_PAN: real := 0.0
  const DEFAULT_SPEED: real := 1.0
  const UNKNOWN: real := -1.0

  class Sound {
    const key: nat
    const platform: Platform
    var status: Status
    var duration: real
    var numberOfChannels: real
    var numberOfLoops: real
    var volume: real
    var pan: real
    var speed: real
    /** Loads whose `await` has not yet resumed. */
    ghost var pendingLoads: nat
    /** Releases whose `await` has not yet resumed. */
    ghost var pendingReleases: nat

    /** The state `_initialize` leaves, apart from the status. */
    predicate HasDefaults()
      reads this
    {
      duration == UNKNOWN && numberOfChannels == UNKNOWN && numberOfLoops == 0.0 &&
      volume == DEFAULT_VOLUME && pan == DEFAULT_PAN && speed == DEFAULT_SPEED
    }

    /** `new Sound()`: takes the next key and starts unloaded with default settings. */
    constructor (counter: KeyCounter, platform: Platform)
      requires counter.Valid()
      modifies counter
      ensures counter.Valid()
      ensures key == old(counter.last) + 1 && counter.last == key
      ensures key !in old(counter.issued) && counter.issued == old(counter.issued) + {key}
      ensures this.platform == platform
      ensures status == Unloaded && HasDefaults() && pendingLoads == 0 && pendingReleases == 0
    {
      var k := counter.Next();
      key := k;
      this.platform := platform;
      status := Unloaded;
      duration, numberOfChannels, numberOfLoops := UNKNOWN, UNKNOWN, 0.0;
      volume, pan, speed := DEFAULT_VOLUME, DEFAULT_PAN, DEFAULT_SPEED;
      pendingLoads, pendingReleases := 0, 0;
    }

    method Initialize()
      modifies this
      ensures status == Unloaded && HasDefaults()
      ensures pendingLoads == old(pendingLoads) && pendingReleases == old(pendingReleases)
    {
      status := Unloaded;
      duration, numberOfChannels, numberOfLoops := UNKNOWN, UNKNOWN, 0.0;
      volume, pan, speed := DEFAULT_VOLUME, DEFAULT_PAN, DEFAULT_SPEED;
    }

    predicate IsLoaded()
      reads this
    {
      status == Loaded
    }

    /** The synchronous part of `load`: refused unless unloaded; otherwise the settings return to
        their defaults, the status becomes loading and the native load is issued. */
    method Load(resolve: string -> Option<string>, fileName: string, path: Option<string>, options: Options)
      returns (started: bool, call: Option<NativeCall>)
      modifies this
      ensures started <==> old(status) == Unloaded
      ensures pendingReleases == old(pendingReleases)
      ensures !started ==> call == None && status == old(status) && pendingLoads == old(pendingLoads) &&
                           duration == old(duration) && numberOfChannels == old(numberOfChannels) &&
                           numberOfLoops == old(numberOfLoops) && volume == old(volume) &&
                           pan == old(pan) && speed == old(speed)
      ensures started ==> status == Loading && HasDefaults() && pendingLoads == old(pendingLoads) + 1 &&
                          call == Some(NativeCall.Load(key, ParseDataSource(platform, resolve, fileName, path), options))
    {
      if status != Unloaded {
        return false, None;
      }
      Initialize();
      status := Loading;
      pendingLoads := pendingLoads + 1;
      call := Some(NativeCall.Load(key, ParseDataSource(platform, resolve, fileName, path), options));
      started := true;
    }

    /** The rest of `load`, once the native load settles: a fulfilled load takes the truthy
        fields of the response and marks the sound loaded, whatever happened to it meanwhile; a
        rejected one changes nothing and rejects `load`'s promise. */
    method LoadSettled(reply: Settled<LoadResponse>) returns (result: Settled<bool>)
      requires pendingLoads > 0
      modifies this
      ensures pendingLoads == old(pendingLoads) - 1 && pendingReleases == old(pendingReleases)
      ensures numberOfLoops == old(numberOfLoops) && volume == old(volume)
      ensures pan == old(pan) && speed == old(speed)
      ensures reply.Rejected? ==>
                result == Rejected(reply.reason) && status == old(status) &&
                duration == old(duration) && numberOfChannels == old(numberOfChannels)
      ensures reply.Fulfilled? ==>
                var r := reply.value;
                result == Fulfilled(true) && status == Loaded &&
                duration == (if Given(r.duration) then r.duration.value else old(duration)) &&
                numberOfChannels == (if Given(r.numberOfChannels) then r.numberOfChannels.value else old(numberOfChannels))
    {
      pendingLoads := pendingLoads - 1;
      match reply
      case Rejected(reason) =>
        result := Rejected(reason);
      case Fulfilled(r) =>
        if Given(r.duration) {
          duration := r.duration.value;
        }
        if Given(r.numberOfChannels) {
          numberOfChannels := r.numberOfChannels.value;
        }
        status := Loaded;
        result := Fulfilled(true);
    }

    /** Plays a loaded sound, after attaching the end callback on Android; otherwise resolves
        false without a native call. */
    method Play(onEnd: Option<JsCallback>, reply: Settled<()>) returns (calls: seq<NativeCall>, result: Settled<bool>)
      ensures !IsLoaded() ==> calls == [] && result == Fulfilled(false)
      ensures IsLoaded() ==>
                calls == (if onEnd.Some? && platform == Android then [SetOnCompletionListener(key, onEnd.value)] else []) +
                         [NativeCall.Play(key)] &&
                result == match reply case Fulfilled(_) => Fulfilled(true) case Rejected(e) => Rejected(e)
    {
      if !IsLoaded() {
        return [], Fulfilled(false);
      }
      calls := [];
      if onEnd.Some? && platform == Android {
        calls := calls + [SetOnCompletionListener(key, onEnd.value)];
      }
      calls := calls + [NativeCall.Play(key)];
      result := match reply case Fulfilled(_) => Fulfilled(true) case Rejected(e) => Rejected(e);
    }

    /** The shape of `pause`, `stop`, `reset` and `setCurrentMillis`: the call is made only when
        `issued`, and the method settles as the call does, or at once when no call is made. */
    static function Guarded(issued: bool, c: NativeCall, reply: Settled<()>): (Option<NativeCall>, Settled<()>)
    {
      if issued then (Some(c), reply) else (None, Fulfilled(()))
    }

    method Pause(reply: Settled<()>) returns (call: Option<NativeCall>, result: Settled<()>)
      ensures (call, result) == Guarded(IsLoaded(), NativeCall.Pause(key), reply)
    {
      call, result := None, Fulfilled(());
      if IsLoaded() {
        call, result := Some(NativeCall.Pause(key)), reply;
      }
    }

    method Stop(reply: Settled<()>) returns (call: Option<NativeCall>, result: Settled<()>)
      ensures (call, result) == Guarded(IsLoaded(), NativeCall.Stop(key), reply)
    {
      call, result := None, Fulfilled(());
      if IsLoaded() {
        call, result := Some(NativeCall.Stop(key)), reply;
      }
    }

    /** Only Android can reset a player. */
    method Reset(reply: Settled<()>) returns (call: Option<NativeCall>, result: Settled<()>)
      ensures (call, result) == Guarded(IsLoaded() && platform == Android, NativeCall.Reset(key), reply)
    {
      call, result := None, Fulfilled(());
      if IsLoaded() && platform == Android {
        call, result := Some(NativeCall.Reset(key)), reply;
      }
    }

    method SetCurrentMillis(ms: int, reply: Settled<()>) returns (call: Option<NativeCall>, result: Settled<()>)
      ensures (call, result) == Guarded(IsLoaded(), NativeCall.SetCurrentMillis(key, ms), reply)
    {
      call, result := None, Fulfilled(());
      if IsLoaded() {
        call, result := Some(NativeCall.SetCurrentMillis(key, ms)), reply;
      }
    }

    /** The synchronous part of `release`: unless already unloaded, the native release is
        issued and the status is left as it is until that release settles; an unloaded sound
        stays unloaded and `release` resolves at once. */
    method Release() returns (started: bool, call: Option<NativeCall>)
      modifies this
      ensures started <==> old(status) != Unloaded
      ensures !started ==> call == None && status == Unloaded && pendingReleases == old(pendingReleases)
      ensures started ==> call == Some(NativeCall.Release(key)) && status == old(status) &&
                          pendingReleases == old(pendingReleases) + 1
      ensures duration == old(duration) && numberOfChannels == old(numberOfChannels)
      ensures numberOfLoops == old(numberOfLoops) && volume == old(volume)
      ensures pan == old(pan) && speed == old(speed) && pendingLoads == old(pendingLoads)
    {
      if status != Unloaded {
        pendingReleases := pendingReleases + 1;
        return true, Some(NativeCall.Release(key));
      }
      status := Unloaded;
      return false, None;
    }

    /** The rest of `release`, once the native release settles: a fulfilled release marks the
        sound unloaded, whatever its status is by then; a rejected one changes nothing and
        rejects `release`'s promise. */
    method ReleaseSettled(reply: Settled<()>) returns (result: Settled<()>)
      requires pendingReleases > 0
      modifies this
      ensures pendingReleases == old(pendingReleases) - 1 && result == reply
      ensures status == if reply.Fulfilled? then Unloaded else old(status)
      ensures duration == old(duration) && numberOfChannels == old(numberOfChannels)
      ensures numberOfLoops == old(numberOfLoops) && volume == old(volume)
      ensures pan == old(pan) && speed == old(speed) && pendingLoads == old(pendingLoads)
    {
      pendingReleases := pendingReleases - 1;
      result := reply;
      if reply.Fulfilled? {
        status := Unloaded;
      }
    }

    /** Stores the volume whatever the status and forwards it when loaded. */
    method SetVolume(value: real, reply: Settled<()>) returns (call: Option<NativeCall>, result: Settled<()>)
      modifies this
      ensures volume == value
      ensures status == old(status) && duration == old(duration) && numberOfChannels == old(numberOfChannels)
      ensures numberOfLoops == old(numberOfLoops) && pan == old(pan) && speed == old(speed)
      ensures pendingLoads == old(pendingLoads) && pendingReleases == old(pendingReleases)
      ensures (call, result) == Guarded(IsLoaded(), VolumeCall(platform, key, value), reply)
    {
      volume := value;
      call, result := None, Fulfilled(());
      if IsLoaded() {
        call, result := Some(VolumeCall(platform, key, value)), reply;
      }
    }

    method SetPan(value: real, reply: Settled<()>) returns (call: Option<NativeCall>, result: Settled<()>)
      modifies this
      ensures pan == value
      ensures status == old(status) && duration == old(duration) && numberOfChannels == old(numberOfChannels)
      ensures numberOfLoops == old(numberOfLoops) && volume == old(volume) && speed == old(speed)
      ensures pendingLoads == old(pendingLoads) && pendingReleases == old(pendingReleases)
      ensures (call, result) == Guarded(IsLoaded(), NativeCall.SetPan(key, value), reply)
    {
      pan := value;
      call, result := None, Fulfilled(());
      if IsLoaded() {
        call, result := Some(NativeCall.SetPan(key, pan)), reply;
      }
    }

    method SetNumberOfLoops(value: real, reply: Settled<()>) returns (call: Option<NativeCall>, result: Settled<()>)
      modifies this
      ensures numberOfLoops == value
      ensures status == old(status) && duration == old(duration) && numberOfChannels == old(numberOfChannels)
      ensures volume == old(volume) && pan == old(pan) && speed == old(speed)
      ensures pendingLoads == old(pendingLoads) && pendingReleases == old(pendingReleases)
      ensures (call, result) == Guarded(IsLoaded(), LoopsCall(platform, key, value), reply)
    {
      numberOfLoops := value;
      call, result := None, Fulfilled(());
      if IsLoaded() {
        call, result := Some(LoopsCall(platform, key, value)), reply;
      }
    }

    /** Windows has no playback speed: the value is stored but never forwarded there. */
    method SetSpeed(value: real, reply: Settled<()>) returns (call: Option<NativeCall>, result: Settled<()>)
      modifies this
      ensures speed == value
      ensures status == old(status) && duration == old(duration) && numberOfChannels == old(numberOfChannels)
      ensures numberOfLoops == old(numberOfLoops) && volume == old(volume) && pan == old(pan)
      ensures pendingLoads == old(pendingLoads) && pendingReleases == old(pendingReleases)
      ensures (call, result) == Guarded(platform != Windows && IsLoaded(), NativeCall.SetSpeed(key, value), reply)
    {
      speed := value;
      call, result := None, Fulfilled(());
      if platform != Windows && IsLoaded() {
        call, result := Some(NativeCall.SetSpeed(key, value)), reply;
      }
    }

    /** The native position when loaded, -1 otherwise. */
    method GetCurrentMillis(reply: Settled<int>) returns (call: Option<NativeCall>, result: Settled<int>)
      ensures IsLoaded() ==> call == Some(NativeCall.GetCurrentMillis(key)) && result == reply
      ensures !IsLoaded() ==> call == None && result == Fulfilled(-1)
    {
      if IsLoaded() {
        return Some(NativeCall.GetCurrentMillis(key)), reply;
      }
      return None, Fulfilled(-1);
    }

    /** The native answer when loaded, false otherwise. */
    method IsPlaying(reply: Settled<bool>) returns (call: Option<NativeCall>, result: Settled<bool>)
      ensures IsLoaded() ==> call == Some(NativeCall.IsPlaying(key)) && result == reply
      ensures !IsLoaded() ==> call == None && result == Fulfilled(false)
    {
      if IsLoaded() {
        return Some(NativeCall.IsPlaying(key)), reply;
      }
      return None, Fulfilled(false);
    }

    /** Only Android reports playback errors; the native error data reaches the callback as a
        `PlaybackError` (see `FromErrorData`). */
    method SetErrorCallback(onError: JsCallback) returns (call: Option<NativeCall>)
      ensures call.Some? <==> platform == Android
      ensures call.Some? ==> call.value == NativeCall.SetErrorCallback(key, onError)
    {
      call := if platform == Android then Some(NativeCall.SetErrorCallback(key, onError)) else None;
    }

    /** Android only, and whatever the status. */
    method SetSpeakerphoneOn(on: bool, reply: Settled<()>) returns (call: Option<NativeCall>, result: Settled<()>)
      ensures (call, result) == Guarded(platform == Android, NativeCall.SetSpeakerphoneOn(key, on), reply)
    {
      call, result := None, Fulfilled(());
      if platform == Android {
        call, result := Some(NativeCall.SetSpeakerphoneOn(key, on)), reply;
      }
    }
  }

  /** A load from `unloaded` that the native side fulfils: the sound ends loaded, and its duration
      and channel count are the truthy values of the response or else the reset value -1. */
  method LoadToCompletion(s: Sound, resolve: string -> Option<string>, fileName: string, path: Option<string>,
                          options: Options, response: LoadResponse)
    returns (call: Option<NativeCall>, result: Settled<bool>)
    requires s.status == Unloaded
    modifies s
    ensures call == Some(NativeCall.Load(s.key, ParseDataSource(s.platform, resolve, fileName, path), options))
    ensures result == Fulfilled(true) && s.IsLoaded() && s.pendingLoads == old(s.pendingLoads)
    ensures s.duration == if Given(response.duration) then response.duration.value else UNKNOWN
    ensures s.numberOfChannels == if Given(response.numberOfChannels) then response.numberOfChannels.value else UNKNOWN
    ensures s.numberOfLoops == 0.0 && s.volume == DEFAULT_VOLUME && s.pan == DEFAULT_PAN && s.speed == DEFAULT_SPEED
  {
    var started;
    started, call := s.Load(resolve, fileName, path, options);
    result := s.LoadSettled(Fulfilled(response));
  }

  /** A release issued while a load is in flight, whose native reply arrives after the load's:
      a second load is refused meanwhile, the load's continuation marks the sound loaded, and
      the release's continuation then leaves it unloaded. */
  method ReleaseWhileLoading(s: Sound, resolve: string -> Option<string>, fileName: string, path: Option<string>,
                             options: Options, response: LoadResponse)
    returns (calls: seq<NativeCall>, secondLoadStarted: bool)
    requires s.status == Unloaded
    modifies s
    ensures calls == [NativeCall.Load(s.key, ParseDataSource(s.platform, resolve, fileName, path), options),
                      NativeCall.Release(s.key)]
    ensures !secondLoadStarted
    ensures s.status == Unloaded
    ensures s.pendingLoads == old(s.pendingLoads) && s.pendingReleases == old(s.pendingReleases)
  {
    var started, load := s.Load(resolve, fileName, path, options);
    var releasing, release := s.Release();
    var again;
    secondLoadStarted, again := s.Load(resolve, fileName, path, options);
    var loaded := s.LoadSettled(Fulfilled(response));
    assert s.status == Loaded;
    var released := s.ReleaseSettled(Fulfilled(()));
    calls := [load.value, release.value];
  }

  /** `setSystemVolume`'s clamp into [0, 1]. */
  function Clamp(value: real): (r: real)
    ensures 0.0 <= r <= 1.0
    ensures 0.0 <= value <= 1.0 ==> r == value
    ensures value < 0.0 ==> r == 0.0
    ensures value > 1.0 ==> r == 1.0
  {
    if value < 0.0 then 0.0 else if value > 1.0 then 1.0 else value
  }

  function Dist(a: real, b: real): real {
    if a < b then b - a else a - b
  }

  /** The clamped value is the point of [0, 1] nearest the argument, and clamping twice is
      clamping once. */
  lemma ClampIsNearest(value: real, y: real)
    requires 0.0 <= y <= 1.0
    ensures Dist(Clamp(value), value) <= Dist(y, value)
    ensures Clamp(Clamp(value)) == Clamp(value)
  {
  }

  /** The system volume is clamped before it is forwarded with the options object (`{}` when
      the caller gives none), and only Android has one. */
  function SetSystemVolume(platform: Platform, value: real, options: Options): (call: Option<NativeCall>)
    ensures call.Some? <==> platform == Android
    ensures call.Some? ==> call.value == NativeCall.SetSystemVolume(Clamp(value), Some(options))
  {
    if platform == Android then Some(NativeCall.SetSystemVolume(Clamp(value), Some(options))) else None
  }

  /** The compiled revision's audio-focus and volume-stream statics: each passes straight to
      the native module on Android and does nothing elsewhere. */
  function AndroidOnly(platform: Platform, call: NativeCall): (r: Option<NativeCall>)
    ensures r.Some? <==> platform == Android
    ensures r.Some? ==> r.value == call
  {
    if platform == Android then Some(call) else None
  }

  /** The options object a static sends when the caller gives none: `{}`. */
  const NO_OPTIONS := Options(None, None)

  /** `requestAudioFocus(options)`: the options go to the native request unchanged. */
  function RequestAudioFocus(platform: Platform, options: Options): (r: Option<NativeCall>)
    ensures r == AndroidOnly(platform, NativeCall.RequestAudioFocus(options))
  {
    if platform == Android then Some(NativeCall.RequestAudioFocus(options)) else None
  }

  /** `abandonAudioFocus()`. */
  function AbandonAudioFocus(platform: Platform): (r: Option<NativeCall>)
    ensures r == AndroidOnly(platform, NativeCall.AbandonAudioFocus)
  {
    if platform == Android then Some(NativeCall.AbandonAudioFocus) else None
  }

  /** `setVolumeControlStream(options = {})`: a missing argument sends the empty options. */
  function SetVolumeControlStream(platform: Platform, options: Option<Options>): (r: Option<NativeCall>)
    ensures r == AndroidOnly(platform, NativeCall.SetVolumeControlStream(options.GetOr(NO_OPTIONS)))
    ensures r.Some? && options.None? ==> r.value.streamOptions == NO_OPTIONS
  {
    if platform == Android then Some(NativeCall.SetVolumeControlStream(options.GetOr(NO_OPTIONS))) else None
  }

  /** `resetVolumeControlStream()`. */
  function ResetVolumeControlStream(platform: Platform): (r: Option<NativeCall>)
    ensures r == AndroidOnly(platform, NativeCall.ResetVolumeControlStream)
  {
    if platform == Android then Some(NativeCall.ResetVolumeControlStream) else None
  }

  /** `Sound.requestAudioFocus(options)` resolves with what the native request resolves with
      on Android and with `undefined` (`None`) elsewhere. */
  function RequestAudioFocusResult(platform: Platform, native: Settled<string>): (r: Settled<Option<string>>)
    ensures platform != Android ==> r == Fulfilled(None)
    ensures platform == Android && native.Fulfilled? ==> r == Fulfilled(Some(native.value))
    ensures platform == Android && native.Rejected? ==> r == Rejected(native.reason)
  {
    if platform != Android then Fulfilled(None)
    else match native
      case Fulfilled(s) => Fulfilled(Some(s))
      case Rejected(e) => Rejected(e)
  }

  /** On Android a focus request resolves with one of the three names the native side uses. */
  lemma RequestAudioFocusNames(options: Options, sdk: int, result: int)
    ensures var r := RequestAudioFocusResult(Android, Fulfilled(FocusRequestResult(sdk, result)));
      r.Fulfilled? && r.value.Some? && r.value.value in {"granted", "delayed", "failed"}
  {
  }

  /** The error a playback error callback receives. */
  datatype PlaybackError = PlaybackError(what: JavaInt, extra: JavaInt)

  /** `new PlaybackError(errorData)` keeps both codes of the native error data. */
  function FromErrorData(what: JavaInt, extra: JavaInt): (e: PlaybackError)
    ensures e.what == what && e.extra == extra
  {
    PlaybackError(what, extra)
  }

  const WHAT: string := "What: "
  const EXTRA: string := ", Extra: "

  /** `toString()`: `What: <what>, Extra: <extra>`. */
  function ToString(e: PlaybackError): string {
    WHAT + IntToString(e.what) + EXTRA + IntToString(e.extra)
  }

  /** Reads a rendered `PlaybackError` back: the codes are what precedes and what follows the
      only comma. */
  function ParsePlaybackError(s: string): Option<PlaybackError> {
    if !(WHAT <= s) then None
    else
      var rest := s[|WHAT|..];
      match LastIndexOf(rest, ',')
      case None => None
      case Some(i) =>
        if !(EXTRA <= rest[i..]) then None
        else
          match (ParseInt(rest[..i]), ParseInt(rest[i + |EXTRA|..]))
          case (Some(w), Some(x)) =>
            if IsJavaInt(w) && IsJavaInt(x) then Some(PlaybackError(w, x)) else None
          case _ => None
  }

  lemma NoCommaInIntToString(i: int)
    ensures ',' !in IntToString(i)
  {
    var s := IntToString(i);
    assert forall k :: 0 <= k < |s| ==> IsDigit(s[k]) || s[k] == '-';
  }

  /** In `w + EXTRA + x` with no comma in `w` or `x`, the last comma is the one `EXTRA` starts with. */
  lemma SplitAtExtra(w: string, x: string)
    requires ',' !in w && ',' !in x
    ensures var rest := w + EXTRA + x;
      LastIndexOf(rest, ',') == Some(|w|) && rest[..|w|] == w && EXTRA <= rest[|w|..] &&
      rest[|w| + |EXTRA|..] == x
  {
    var rest := w + EXTRA + x;
    assert rest[|w|] == ',';
    assert rest[|w| + 1..] == EXTRA[1..] + x;
    assert ',' !in EXTRA[1..];
    assert rest[|w|..] == EXTRA + x;
  }

  /** The rendering names both codes: it reads back to the same error. */
  lemma PlaybackErrorRoundTrip(e: PlaybackError)
    ensures ParsePlaybackError(ToString(e)) == Some(e)
  {
    var w, x := IntToString(e.what), IntToString(e.extra);
    var s := ToString(e);
    assert s == WHAT + (w + EXTRA + x);
    assert s[|WHAT|..] == w + EXTRA + x;
    NoCommaInIntToString(e.what);
    NoCommaInIntToString(e.extra);
    SplitAtExtra(w, x);
    IntToStringRoundTrip(e.what);
    IntToStringRoundTrip(e.extra);
  }
}
