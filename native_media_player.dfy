/** The platform media player as the native module sees it. The model keeps only the player's
    observable state and the listeners attached to it; decoding and output are platform work.
    `faulted` is an abstract source of exceptions: once it is set, every engine call except
    `isLooping` throws; listener setters never throw. */
module NativeMediaPlayer {
  import opened Wrappers
  import opened AudioOptions
  import opened NativeDataSource

  type Key = int
  type CallbackId = nat
  type PromiseId = nat

  /** The listeners the module attaches; each remembers the key it was created for and the
      bridge callback or promise it completes. */
  datatype CompletionListener = CompletionListener(key: Key, callback: CallbackId)
  datatype PreparedListener = PreparedListener(key: Key, promise: PromiseId)
  datatype ErrorListener = ErrorListener(key: Key)

  datatype Engine = Engine(
    source: Option<SourceDescriptor>,
    setup: Option<AudioSetup>,
    preparing: bool,
    prepared: bool,
    playing: bool,
    looping: bool,
    position: int,
    duration: int,
    left: real,
    right: real,
    speed: real,
    released: bool,
    faulted: bool,
    onCompletion: Option<CompletionListener>,
    onPrepared: Option<PreparedListener>,
    onError: Option<ErrorListener>)

  /** A newly constructed player: idle, at full volume and normal speed, with no listeners. */
  const Idle := Engine(None, None, false, false, false, false, 0, -1, 1.0, 1.0, 1.0, false, false, None, None, None)

  /** The state once every listener has been cleared. */
  function Detached(e: Engine): Engine {
    e.(onCompletion := None, onPrepared := None, onError := None)
  }

  /** The state `reset()` returns a player to; listeners and settings stay. */
  function AfterReset(e: Engine): Engine {
    e.(source := None, preparing := false, prepared := false, playing := false, position := 0)
  }

  /** A player to which `setPlaybackParams` gave `speed`: once prepared, a zero speed pauses it
      and any other speed starts it; before that only the speed is remembered. */
  function WithSpeed(e: Engine, speed: real): Engine {
    if e.prepared then e.(speed := speed, playing := speed != 0.0) else e.(speed := speed)
  }

  class MediaPlayer {
    var state: Engine

    constructor ()
      ensures state == Idle
    {
      state := Idle;
    }

    method SetOnCompletionListener(l: Option<CompletionListener>)
      modifies this
      ensures state == old(state).(onCompletion := l)
    {
      state := state.(onCompletion := l);
    }

    method SetOnPreparedListener(l: Option<PreparedListener>)
      modifies this
      ensures state == old(state).(onPrepared := l)
    {
      state := state.(onPrepared := l);
    }

    method SetOnErrorListener(l: Option<ErrorListener>)
      modifies this
      ensures state == old(state).(onError := l)
    {
      state := state.(onError := l);
    }

    method IsPlaying() returns (ok: bool, playing: bool)
      ensures ok == !state.faulted
      ensures ok ==> playing == state.playing
    {
      ok := !state.faulted;
      playing := ok && state.playing;
    }

    /** From now on every engine call except `isLooping` throws. */
    method Fault()
      modifies this
      ensures state == old(state).(faulted := true)
    {
      state := state.(faulted := true);
    }

    /** `isLooping()` is modelled as a query that never throws. */
    method IsLooping() returns (looping: bool)
      ensures looping == state.looping
    {
      looping := state.looping;
    }

    method GetCurrentPosition() returns (ok: bool, ms: int)
      ensures ok == !state.faulted
      ensures ok ==> ms == state.position
    {
      ok := !state.faulted;
      ms := if ok then state.position else 0;
    }

    method GetDuration() returns (ok: bool, ms: int)
      ensures ok == !state.faulted
      ensures ok ==> ms == state.duration
    {
      ok := !state.faulted;
      ms := if ok then state.duration else 0;
    }

    /** Runs one engine call: it takes effect as `next` unless the player is faulted. */
    method Apply(next: Engine) returns (ok: bool)
      modifies this
      ensures ok == !old(state.faulted)
      ensures state == if ok then next else old(state)
    {
      ok := !state.faulted;
      if ok {
        state := next;
      }
    }

    method SetAudioSetup(setup: AudioSetup) returns (ok: bool)
      modifies this
      ensures ok == !old(state.faulted)
      ensures state == if ok then old(state).(setup := Some(setup)) else old(state)
    {
      ok := Apply(state.(setup := Some(setup)));
    }

    method SetDataSource(source: SourceDescriptor) returns (ok: bool)
      modifies this
      ensures ok == !old(state.faulted)
      ensures state == if ok then old(state).(source := Some(source)) else old(state)
    {
      ok := Apply(state.(source := Some(source)));
    }

    method PrepareAsync() returns (ok: bool)
      modifies this
      ensures ok == !old(state.faulted)
      ensures state == if ok then old(state).(preparing := true) else old(state)
    {
      ok := Apply(state.(preparing := true));
    }

    method Start() returns (ok: bool)
      modifies this
      ensures ok == !old(state.faulted)
      ensures state == if ok then old(state).(playing := true) else old(state)
    {
      ok := Apply(state.(playing := true));
    }

    method Pause() returns (ok: bool)
      modifies this
      ensures ok == !old(state.faulted)
      ensures state == if ok then old(state).(playing := false) else old(state)
    {
      ok := Apply(state.(playing := false));
    }

    /** `stop()`: playback ends and the player must be prepared again before it can start. */
    method Stop() returns (ok: bool)
      modifies this
      ensures ok == !old(state.faulted)
      ensures state == if ok then old(state).(playing := false, prepared := false) else old(state)
    {
      ok := Apply(state.(playing := false, prepared := false));
    }

    method SeekTo(ms: int) returns (ok: bool)
      modifies this
      ensures ok == !old(state.faulted)
      ensures state == if ok then old(state).(position := ms) else old(state)
    {
      ok := Apply(state.(position := ms));
    }

    method Reset() returns (ok: bool)
      modifies this
      ensures ok == !old(state.faulted)
      ensures state == if ok then AfterReset(old(state)) else old(state)
    {
      ok := Apply(AfterReset(state));
    }

    method Release() returns (ok: bool)
      modifies this
      ensures ok == !old(state.faulted)
      ensures state == if ok then old(state).(released := true, playing := false) else old(state)
    {
      ok := Apply(state.(released := true, playing := false));
    }

    method SetVolume(left: real, right: real) returns (ok: bool)
      modifies this
      ensures ok == !old(state.faulted)
      ensures state == if ok then old(state).(left := left, right := right) else old(state)
    {
      ok := Apply(state.(left := left, right := right));
    }

    method SetLooping(looping: bool) returns (ok: bool)
      modifies this
      ensures ok == !old(state.faulted)
      ensures state == if ok then old(state).(looping := looping) else old(state)
    {
      ok := Apply(state.(looping := looping));
    }

    method SetSpeed(speed: real) returns (ok: bool)
      modifies this
      ensures ok == !old(state.faulted)
      ensures state == if ok then WithSpeed(old(state), speed) else old(state)
    {
      ok := Apply(WithSpeed(state, speed));
    }
  }
}
