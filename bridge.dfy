/** What the JavaScript layers see of the native side: the platform they run on, the calls they
    make into the native module, how an awaited native call settles, and the module-wide key
    counter every `Sound` draws its key from. */
module Bridge {
  import opened Wrappers
  import opened AudioOptions

  datatype Platform = Android | Ios | Windows

  /** A JavaScript callback handed to the native module, by identity. */
  type JsCallback = nat

  /** One call into the native module, with the arguments the JavaScript side passes; callbacks
      the JavaScript side wraps are recorded by the callback they end in. */
  datatype NativeCall =
    | Load(key: int, dataSource: string, options: Options)
    | LegacyLoad(dataSource: string, key: int, options: Options, onLoadError: Option<JsCallback>)
    | SetOnCompletionListener(key: int, onEnd: JsCallback)
    | Play(key: int)
    | Pause(key: int)
    | Stop(key: int)
    | Reset(key: int)
    | Release(key: int)
    | SetVolume(key: int, left: real, right: real)
    | SetVolumeMono(key: int, volume: real)
    | SetPan(key: int, pan: real)
    | SetLooping(key: int, looping: bool)
    | SetNumberOfLoops(key: int, loops: real)
    | SetSpeed(key: int, speed: real)
    | GetCurrentMillis(key: int)
    | SetCurrentMillis(key: int, ms: int)
    | GetCurrentTime(key: int, callback: JsCallback)
    | SetCurrentTime(key: int, seconds: real)
    | IsPlaying(key: int)
    | SetErrorCallback(key: int, onError: JsCallback)
    | SetSpeakerphoneOn(key: int, on: bool)
    | SetSystemVolume(volume: real, volumeOptions: Option<Options>)
    | RequestAudioFocus(focusOptions: Options)
    | AbandonAudioFocus
    | SetVolumeControlStream(streamOptions: Options)
    | ResetVolumeControlStream

  /** How an awaited promise settles. */
  datatype Settled<T> = Fulfilled(value: T) | Rejected(reason: string)

  /** JavaScript's `!!value` for a number (NaN is not modelled). */
  predicate Truthy(value: real) {
    value != 0.0
  }

  /** The volume call both revisions make: Android and Windows take a left and a right volume,
      iOS a single one. */
  function VolumeCall(platform: Platform, key: int, value: real): (c: NativeCall)
    ensures (c.SetVolume? || c.SetVolumeMono?) && c.key == key
    ensures c.SetVolumeMono? <==> platform == Ios
    ensures c.SetVolume? ==> c.left == value && c.right == value
    ensures c.SetVolumeMono? ==> c.volume == value
  {
    match platform
    case Android | Windows => SetVolume(key, value, value)
    case Ios => SetVolumeMono(key, value)
  }

  /** The loop-count call both revisions make: Android and Windows can only loop forever or not
      at all, so any non-zero count turns looping on; iOS takes the count. */
  function LoopsCall(platform: Platform, key: int, loops: real): (c: NativeCall)
    ensures (c.SetLooping? || c.SetNumberOfLoops?) && c.key == key
    ensures c.SetNumberOfLoops? <==> platform == Ios
    ensures c.SetLooping? ==> (c.looping <==> loops != 0.0)
    ensures c.SetNumberOfLoops? ==> c.loops == loops
  {
    match platform
    case Android | Windows => SetLooping(key, Truthy(loops))
    case Ios => SetNumberOfLoops(key, loops)
  }

  /** The module-level `keyCounter`: each new `Sound` pre-increments it and takes the result. */
  class KeyCounter {
    var last: nat
    ghost var issued: set<nat>

    ghost predicate Valid()
      reads this
    {
      forall k :: k in issued ==> 1 <= k <= last
    }

    constructor ()
      ensures last == 0 && issued == {}
      ensures Valid()
    {
      last := 0;
      issued := {};
    }

    /** `++keyCounter`: a key larger than every key issued before, hence different from each. */
    method Next() returns (key: nat)
      requires Valid()
      modifies this
      ensures Valid()
      ensures key == old(last) + 1 && last == key
      ensures key !in old(issued) && issued == old(issued) + {key}
      ensures forall k :: k in old(issued) ==> k < key
    {
      last := last + 1;
      key := last;
      issued := issued + {key};
    }
  }
}
