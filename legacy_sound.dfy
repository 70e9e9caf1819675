/** The older callback-style JavaScript `Sound`: two flags, `isLoading` and `isLoaded`, instead
    of a status; verbs that return the sound itself for chaining; and a load whose completion is
    a native callback that reads the duration and channel count out of the response. */
module LegacySound {
  import opened Wrappers
  import opened AudioOptions
  import opened Bridge
  import opened JsDataSource

  /** A JavaScript value as the native load callback may deliver it. */
  datatype JsValue =
    | Undefined
    | Null
    | Bool(b: bool)
    | Number(n: real)
    | Text(s: string)
    | Object(fields: map<string, JsValue>)

  /** JavaScript truthiness (NaN is not modelled). */
  predicate TruthyValue(v: JsValue) {
    match v
    case Undefined => false
    case Null => false
    case Bool(b) => b
    case Number(n) => Truthy(n)
    case Text(s) => s != ""
    case Object(_) => true
  }

  /** `isNumber(value)` is `value && typeof value === "number"`: a non-zero number. */
  predicate IsNumber(v: JsValue)
    ensures IsNumber(v) <==> v.Number? && v.n != 0.0
  {
    TruthyValue(v) && v.Number?
  }

  /** `response.name`: a field of an object, and `undefined` for anything else the model reads. */
  function Property(v: JsValue, name: string): JsValue {
    if v.Object? && name in v.fields then v.fields[name] else Undefined
  }

  const DEFAULT_VOLUME: real := 1.0
  const DEFAULT_PAN: real := 0.0
  const DEFAULT_SPEED: real := 1.0
  const UNKNOWN: real := -1.0

  class Sound {
    const key: nat
    const platform: Platform
    var isLoading: bool
    var isLoaded: bool
    var duration: real
    var numberOfChannels: real
    var numberOfLoops: real
    var volume: real
    var pan: real
    var speed: real

    /** The two flags are never both set. */
    predicate Valid()
      reads this
    {
      !(isLoading && isLoaded)
    }

    /** The settings `initialize` leaves. */
    predicate HasDefaults()
      reads this
    {
      duration == UNKNOWN && numberOfChannels == UNKNOWN && numberOfLoops == 0.0 &&
      volume == DEFAULT_VOLUME && pan == DEFAULT_PAN && speed == DEFAULT_SPEED
    }

    constructor (counter: KeyCounter, platform: Platform)
      requires counter.Valid()
      modifies counter
      ensures counter.Valid()
      ensures key == old(counter.last) + 1 && counter.last == key
      ensures key !in old(counter.issued) && counter.issued == old(counter.issued) + {key}
      ensures this.platform == platform
      ensures !isLoading && !isLoaded && HasDefaults() && Valid()
    {
      var k := counter.Next();
      key := k;
      this.platform := platform;
      isLoading, isLoaded := false, false;
      duration, numberOfChannels, numberOfLoops := UNKNOWN, UNKNOWN, 0.0;
      volume, pan, speed := DEFAULT_VOLUME, DEFAULT_PAN, DEFAULT_SPEED;
    }

    method Initialize()
      modifies this
      ensures !isLoading && !isLoaded && HasDefaults() && Valid()
    {
      isLoading, isLoaded := false, false;
      duration, numberOfChannels, numberOfLoops := UNKNOWN, UNKNOWN, 0.0;
      volume, pan, speed := DEFAULT_VOLUME, DEFAULT_PAN, DEFAULT_SPEED;
    }

    /** Does nothing while loading or loaded; otherwise re-initialises, sets only `isLoading`
        and issues the native load. */
    method Load(resolve: string -> Option<string>, fileName: string, path: Option<string>, options: Options,
                onError: Option<JsCallback>)
      returns (call: Option<NativeCall>)
      requires Valid()
      modifies this
      ensures Valid()
      ensures old(isLoading || isLoaded) ==>
                call == None && isLoading == old(isLoading) && isLoaded == old(isLoaded) &&
                duration == old(duration) && numberOfChannels == old(numberOfChannels) &&
                numberOfLoops == old(numberOfLoops) && volume == old(volume) &&
                pan == old(pan) && speed == old(speed)
      ensures !old(isLoading || isLoaded) ==>
                isLoading && !isLoaded && HasDefaults() &&
                call == Some(LegacyLoad(ParseDataSource(platform, resolve, fileName, path), key, options, onError))
    {
      if isLoading || isLoaded {
        return None;
      }
      Initialize();
      isLoading := true;
      call := Some(LegacyLoad(ParseDataSource(platform, resolve, fileName, path), key, options, onError));
    }

    /** Takes a non-zero numeric duration and channel count from the response and swaps the
        flags to loaded. */
    method ParseLoadResponse(response: JsValue)
      modifies this
      ensures Valid() && !isLoading && isLoaded
      ensures var d := Property(response, "duration");
              duration == if TruthyValue(response) && IsNumber(d) then d.n else old(duration)
      ensures var c := Property(response, "numberOfChannels");
              numberOfChannels == if TruthyValue(response) && IsNumber(c) then c.n else old(numberOfChannels)
      ensures numberOfLoops == old(numberOfLoops) && volume == old(volume)
      ensures pan == old(pan) && speed == old(speed)
    {
      if TruthyValue(response) {
        if IsNumber(Property(response, "duration")) {
          duration := Property(response, "duration").n;
        }
        if IsNumber(Property(response, "numberOfChannels")) {
          numberOfChannels := Property(response, "numberOfChannels").n;
        }
      }
      isLoading := false;
      isLoaded := true;
    }

    /** The native load's success callback: parses the response, then hands it to `onSuccess`. */
    method LoadSucceeded(response: JsValue, onSuccess: Option<JsCallback>) returns (invoked: Option<(JsCallback, JsValue)>)
      modifies this
      ensures Valid() && !isLoading && isLoaded
      ensures invoked == if onSuccess.Some? then Some((onSuccess.value, response)) else None
      ensures var d := Property(response, "duration");
              duration == if TruthyValue(response) && IsNumber(d) then d.n else old(duration)
      ensures var c := Property(response, "numberOfChannels");
              numberOfChannels == if TruthyValue(response) && IsNumber(c) then c.n else old(numberOfChannels)
      ensures numberOfLoops == old(numberOfLoops) && volume == old(volume)
      ensures pan == old(pan) && speed == old(speed)
    {
      ParseLoadResponse(response);
      invoked := if onSuccess.Some? then Some((onSuccess.value, response)) else None;
    }

    /** Plays when loaded; otherwise calls `onEnd(false)` at once. Either way returns itself. */
    method Play(onEnd: Option<JsCallback>) returns (self: Sound, call: Option<NativeCall>, ended: Option<(JsCallback, bool)>)
      ensures self == this
      ensures isLoaded ==> call == Some(NativeCall.Play(key)) && ended == None
      ensures !isLoaded ==> call == None && ended == if onEnd.Some? then Some((onEnd.value, false)) else None
    {
      self := this;
      if isLoaded {
        call, ended := Some(NativeCall.Play(key)), None;
      } else {
        call := None;
        ended := if onEnd.Some? then Some((onEnd.value, false)) else None;
      }
    }

    /** The native call `c` when `issued`, and the sound itself for chaining. */
    static function Chained(self: Sound, issued: bool, c: NativeCall): (Sound, Option<NativeCall>)
    {
      (self, if issued then Some(c) else None)
    }

    method Pause() returns (self: Sound, call: Option<NativeCall>)
      ensures (self, call) == Chained(this, isLoaded, NativeCall.Pause(key))
    {
      self, call := this, if isLoaded then Some(NativeCall.Pause(key)) else None;
    }

    method Stop() returns (self: Sound, call: Option<NativeCall>)
      ensures (self, call) == Chained(this, isLoaded, NativeCall.Stop(key))
    {
      self, call := this, if isLoaded then Some(NativeCall.Stop(key)) else None;
    }

    method Reset() returns (self: Sound, call: Option<NativeCall>)
      ensures (self, call) == Chained(this, isLoaded && platform == Android, NativeCall.Reset(key))
    {
      self, call := this, if isLoaded && platform == Android then Some(NativeCall.Reset(key)) else None;
    }

    method SetCurrentTime(seconds: real) returns (self: Sound, call: Option<NativeCall>)
      ensures (self, call) == Chained(this, isLoaded, NativeCall.SetCurrentTime(key, seconds))
    {
      self, call := this, if isLoaded then Some(NativeCall.SetCurrentTime(key, seconds)) else None;
    }

    /** Asks for the position only when loaded; when not, the callback is never called, and
        nothing is returned. */
    method GetCurrentTime(callback: JsCallback) returns (call: Option<NativeCall>)
      ensures call.Some? <==> isLoaded
      ensures call.Some? ==> call.value == NativeCall.GetCurrentTime(key, callback)
    {
      call := if isLoaded then Some(NativeCall.GetCurrentTime(key, callback)) else None;
    }

    method SetSpeakerphoneOn(on: bool) returns (call: Option<NativeCall>)
      ensures call.Some? <==> platform == Android
      ensures call.Some? ==> call.value == NativeCall.SetSpeakerphoneOn(key, on)
    {
      call := if platform == Android then Some(NativeCall.SetSpeakerphoneOn(key, on)) else None;
    }

    /** Releases the native player if a load was started, and clears both flags. */
    method Release() returns (self: Sound, call: Option<NativeCall>)
      modifies this
      ensures self == this && Valid() && !isLoading && !isLoaded
      ensures call.Some? <==> old(isLoading || isLoaded)
      ensures call.Some? ==> call.value == NativeCall.Release(key)
      ensures duration == old(duration) && numberOfChannels == old(numberOfChannels)
      ensures numberOfLoops == old(numberOfLoops) && volume == old(volume)
      ensures pan == old(pan) && speed == old(speed)
    {
      call := if isLoading || isLoaded then Some(NativeCall.Release(key)) else None;
      isLoading, isLoaded := false, false;
      self := this;
    }

    /** The setters store the value whatever the flags, forward it only when loaded, and return
        the sound. */
    method SetVolume(value: real) returns (self: Sound, call: Option<NativeCall>)
      modifies this
      ensures volume == value && (self, call) == Chained(this, isLoaded, VolumeCall(platform, key, value))
      ensures isLoading == old(isLoading) && isLoaded == old(isLoaded)
      ensures duration == old(duration) && numberOfChannels == old(numberOfChannels)
      ensures numberOfLoops == old(numberOfLoops) && pan == old(pan) && speed == old(speed)
    {
      volume := value;
      self, call := this, if isLoaded then Some(VolumeCall(platform, key, value)) else None;
    }

    method SetPan(value: real) returns (self: Sound, call: Option<NativeCall>)
      modifies this
      ensures pan == value && (self, call) == Chained(this, isLoaded, NativeCall.SetPan(key, value))
      ensures isLoading == old(isLoading) && isLoaded == old(isLoaded)
      ensures duration == old(duration) && numberOfChannels == old(numberOfChannels)
      ensures numberOfLoops == old(numberOfLoops) && volume == old(volume) && speed == old(speed)
    {
      pan := value;
      self, call := this, if isLoaded then Some(NativeCall.SetPan(key, pan)) else None;
    }

    method SetNumberOfLoops(value: real) returns (self: Sound, call: Option<NativeCall>)
      modifies this
      ensures numberOfLoops == value && (self, call) == Chained(this, isLoaded, LoopsCall(platform, key, value))
      ensures isLoading == old(isLoading) && isLoaded == old(isLoaded)
      ensures duration == old(duration) && numberOfChannels == old(numberOfChannels)
      ensures volume == old(volume) && pan == old(pan) && speed == old(speed)
    {
      numberOfLoops := value;
      self, call := this, if isLoaded then Some(LoopsCall(platform, key, value)) else None;
    }

    method SetSpeed(value: real) returns (self: Sound, call: Option<NativeCall>)
      modifies this
      ensures speed == value
      ensures (self, call) == Chained(this, platform != Windows && isLoaded, NativeCall.SetSpeed(key, value))
      ensures isLoading == old(isLoading) && isLoaded == old(isLoaded)
      ensures duration == old(duration) && numberOfChannels == old(numberOfChannels)
      ensures numberOfLoops == old(numberOfLoops) && volume == old(volume) && pan == old(pan)
    {
      speed := value;
      self, call := this, if platform != Windows && isLoaded then Some(NativeCall.SetSpeed(key, value)) else None;
    }
  }

  /** A load from the unloaded state whose native callback reports success: the sound ends
      loaded, and its duration and channel count are the response's non-zero numbers or else
      the reset value -1. */
  method LoadToCompletion(s: Sound, resolve: string -> Option<string>, fileName: string, path: Option<string>,
                          options: Options, onError: Option<JsCallback>, response: map<string, JsValue>)
    returns (call: Option<NativeCall>)
    requires s.Valid() && !s.isLoading && !s.isLoaded
    modifies s
    ensures call == Some(LegacyLoad(ParseDataSource(s.platform, resolve, fileName, path), s.key, options, onError))
    ensures s.Valid() && s.isLoaded && !s.isLoading
    ensures var d := Property(Object(response), "duration");
            s.duration == if IsNumber(d) then d.n else UNKNOWN
    ensures var c := Property(Object(response), "numberOfChannels");
            s.numberOfChannels == if IsNumber(c) then c.n else UNKNOWN
  {
    call := s.Load(resolve, fileName, path, options, onError);
    s.ParseLoadResponse(Object(response));
  }

  /** The older `setSystemVolume` forwards its argument unclamped, on Android only. */
  function SetSystemVolume(platform: Platform, value: real): (call: Option<NativeCall>)
    ensures call.Some? <==> platform == Android
    ensures call.Some? ==> call.value == NativeCall.SetSystemVolume(value, None)
  {
    if platform == Android then Some(NativeCall.SetSystemVolume(value, None)) else None
  }

  /** A response field that is a non-zero number is taken whole; a zero, a non-number or a
      missing field is not. */
  lemma IsNumberExcludesZero(response: map<string, JsValue>)
    ensures !IsNumber(Property(Object(response), "duration")) <==>
              "duration" !in response || !response["duration"].Number? || response["duration"].n == 0.0
  {
  }
}
