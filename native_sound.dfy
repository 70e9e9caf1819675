/** The native module: a registry from caller-chosen integer keys to media players, the per-key
    error callbacks, the verbs the bridge exposes, the platform's notifications, audio focus, and
    the teardown at the end of the application. */
module NativeSound {
  import opened Wrappers
  import opened AndroidApi
  import opened AudioOptions
  import opened NativeDataSource
  import opened NativeMediaPlayer

  /** What a bridge promise is settled with. */
  datatype Value = Nothing | IntValue(i: int) | BoolValue(b: bool) | TextValue(s: string)

  datatype Rejection =
    | UndefinedPlayer          // `new Exception("Undefined player")`
    | SourceFailure(error: LoadError)
    | EngineException          // an exception out of the platform player

  /** The reply of a verb; `load` leaves its promise pending for the prepared listener. */
  datatype Reply = Pending | Resolved(value: Value) | Rejected(reason: Rejection)

  /** The `{what, extra}` map the error listener hands to the key's error callback. */
  datatype ErrorData = ErrorData(what: JavaInt, extra: JavaInt)

  /** The listener object audio focus is requested with; its identity is what the platform keys
      the focus grant on. */
  class FocusChangeListener {
    constructor ()
    {
    }
  }

  datatype FocusRequest = FocusRequest(focusGain: int, attributes: AudioAttributes, listener: FocusChangeListener)

  /** The call the module makes on the audio manager. */
  datatype FocusCall =
    | RequestWithListener(listener: FocusChangeListener, stream: int, focusGain: int)
    | RequestWithRequest(request: FocusRequest)
    | AbandonWithListener(listener: FocusChangeListener)
    | AbandonWithRequest(request: FocusRequest)

  /** What became of a focus-change notification. */
  datatype FocusDispatch =
    | Dropped                                   // no focus callback set
    | Delivered(callback: CallbackId, name: Option<string>)
    | Raised                                    // the callback had been invoked before; the
                                                // bridge's exception leaves the listener

  /** Players keyed by distinct keys are distinct objects. */
  ghost predicate Injective(pool: map<Key, MediaPlayer?>) {
    forall j, k :: j in pool && k in pool && j != k && pool[j] != null ==> pool[j] != pool[k]
  }

  /** The state a player is left in by the teardown: listeners cleared, then, unless the engine
      throws, stopped, reset and released. */
  function TornDown(e: Engine): Engine {
    if e.faulted then Detached(e)
    else AfterReset(Detached(e)).(prepared := false, released := true)
  }

  /** A key set is empty or has a member; the teardown picks its next key this way. */
  lemma EmptyOrHasKey(keys: set<Key>)
    ensures keys == {} || exists k :: k in keys
  {
    if !(exists k :: k in keys) {
      assert forall k :: k !in keys;
      assert keys == {};
    }
  }

  class SoundModule {
    var playerPool: map<Key, MediaPlayer?>
    var errorCallbackPool: map<Key, CallbackId>
    var focusRequest: Option<FocusRequest>
    var afChangeListener: FocusChangeListener?
    var onAudioFocus: Option<CallbackId>
    /** Bridge callbacks already invoked: a bridge callback may be invoked once, and a second
        invocation throws. */
    var invoked: set<CallbackId>

    constructor ()
      ensures playerPool == map[] && errorCallbackPool == map[]
      ensures focusRequest == None && afChangeListener == null && onAudioFocus == None
      ensures invoked == {}
      ensures Valid()
    {
      playerPool, errorCallbackPool := map[], map[];
      focusRequest, afChangeListener, onAudioFocus := None, null, None;
      invoked := {};
    }

    /** `playerPool.get(key)`: null for a key that is not mapped. */
    function Lookup(key: Key): (p: MediaPlayer?)
      reads this
      ensures p != null <==> key in playerPool && playerPool[key] != null
      ensures p != null ==> p == playerPool[key]
    {
      if key in playerPool then playerPool[key] else null
    }

    function PlayerAt(key: Key): set<MediaPlayer>
      reads this
    {
      if Lookup(key) == null then {} else {Lookup(key)}
    }

    ghost function Players(): set<MediaPlayer>
      reads this
    {
      set k | k in playerPool && playerPool[k] != null :: playerPool[k]
    }

    /** No key reaches a released player, and no two keys share one. */
    ghost predicate Valid()
      reads this, Players()
    {
      && Injective(playerPool)
      && forall k :: k in playerPool && playerPool[k] != null ==> !playerPool[k].state.released
    }

    /** Every player other than the one under `key` is as it was. */
    twostate predicate OthersUnchanged(key: Key)
      reads this, Players()
    {
      forall k :: k in old(playerPool) && k != key && old(playerPool[k]) != null ==>
        k in playerPool && playerPool[k] == old(playerPool[k]) && playerPool[k].state == old(playerPool[k].state)
    }

    method SetErrorCallback(key: Key, onError: CallbackId)
      modifies this
      ensures errorCallbackPool == old(errorCallbackPool)[key := onError]
      ensures playerPool == old(playerPool) && invoked == old(invoked)
      ensures focusRequest == old(focusRequest) && afChangeListener == old(afChangeListener)
      ensures onAudioFocus == old(onAudioFocus)
    {
      errorCallbackPool := errorCallbackPool[key := onError];
    }

    /** Installs a fresh player under `key` before its source is set; a failing source rejects
        the promise and leaves the unprepared player mapped. The player the key held before is
        neither released nor reachable any more. */
    method Load(key: Key, dataSource: string, options: Options, promise: PromiseId, device: Device, sdk: int)
      returns (reply: Reply, player: MediaPlayer)
      requires Valid()
      modifies this
      ensures Valid()
      ensures fresh(player)
      ensures playerPool == old(playerPool)[key := player]
      ensures errorCallbackPool == old(errorCallbackPool) && invoked == old(invoked)
      ensures focusRequest == old(focusRequest) && afChangeListener == old(afChangeListener)
      ensures onAudioFocus == old(onAudioFocus)
      ensures var attached := Idle.(onError := Some(ErrorListener(key)),
                                    onPrepared := Some(PreparedListener(key, promise)),
                                    setup := Some(ApplyAudioOptions(sdk, options)));
              match Classify(device, dataSource)
              case Ok(d) => reply == Pending && player.state == attached.(source := Some(d), preparing := true)
              case Err(e) => reply == Rejected(SourceFailure(e)) && player.state == attached
      ensures var displaced := old(Lookup(key));
              displaced != null ==> !displaced.state.released && displaced !in Players()
    {
      player := new MediaPlayer();
      playerPool := playerPool[key := player];
      player.SetOnErrorListener(Some(ErrorListener(key)));
      player.SetOnPreparedListener(Some(PreparedListener(key, promise)));
      var ok := player.SetAudioSetup(ApplyAudioOptions(sdk, options));
      match Classify(device, dataSource)
      case Err(e) =>
        reply := Rejected(SourceFailure(e));
      case Ok(d) =>
        ok := player.SetDataSource(d);
        ok := player.PrepareAsync();
        reply := Pending;
    }

    /** Attaches a completion listener only to a present player that is not playing. */
    method SetOnCompletionListener(key: Key, onComplete: CallbackId)
      requires Valid()
      modifies PlayerAt(key)
      ensures Valid() && OthersUnchanged(key)
      ensures old(Lookup(key)) != null ==>
                var e := old(Lookup(key).state);
                Lookup(key).state ==
                  if !e.faulted && !e.playing then e.(onCompletion := Some(CompletionListener(key, onComplete)))
                  else e
    {
      var player := Lookup(key);
      if player != null {
        var ok, playing := player.IsPlaying();
        if ok && !playing {
          player.SetOnCompletionListener(Some(CompletionListener(key, onComplete)));
        }
      }
    }

    /** Starts a present player unless it is already playing; a missing key is an error. */
    method Play(key: Key) returns (reply: Reply)
      requires Valid()
      modifies PlayerAt(key)
      ensures Valid() && OthersUnchanged(key)
      ensures old(Lookup(key)) == null ==> reply == Rejected(UndefinedPlayer)
      ensures old(Lookup(key)) != null ==>
                var e := old(Lookup(key).state);
                if e.faulted then reply == Rejected(EngineException) && Lookup(key).state == e
                else reply == Resolved(Nothing) && Lookup(key).state == e.(playing := true)
    {
      var player := Lookup(key);
      if player == null {
        return Rejected(UndefinedPlayer);
      }
      var ok, playing := player.IsPlaying();
      if !ok {
        return Rejected(EngineException);
      }
      if !playing {
        ok := player.Start();
      }
      reply := Resolved(Nothing);
    }

    /** Pauses a playing player; anything else is left alone. */
    method Pause(key: Key) returns (reply: Reply)
      requires Valid()
      modifies PlayerAt(key)
      ensures Valid() && OthersUnchanged(key)
      ensures old(Lookup(key)) == null ==> reply == Resolved(Nothing)
      ensures old(Lookup(key)) != null ==>
                var e := old(Lookup(key).state);
                if e.faulted then reply == Rejected(EngineException) && Lookup(key).state == e
                else reply == Resolved(Nothing) && Lookup(key).state == e.(playing := false)
    {
      var player := Lookup(key);
      if player != null {
        var ok, playing := player.IsPlaying();
        if !ok {
          return Rejected(EngineException);
        }
        if playing {
          ok := player.Pause();
        }
      }
      reply := Resolved(Nothing);
    }

    /** Pauses a playing player and rewinds it to 0; a player that is not playing keeps its
        position. */
    method Stop(key: Key) returns (reply: Reply)
      requires Valid()
      modifies PlayerAt(key)
      ensures Valid() && OthersUnchanged(key)
      ensures old(Lookup(key)) == null ==> reply == Resolved(Nothing)
      ensures old(Lookup(key)) != null ==>
                var e := old(Lookup(key).state);
                if e.faulted then reply == Rejected(EngineException) && Lookup(key).state == e
                else reply == Resolved(Nothing) &&
                     Lookup(key).state == if e.playing then e.(playing := false, position := 0) else e
    {
      var player := Lookup(key);
      if player != null {
        var ok, playing := player.IsPlaying();
        if !ok {
          return Rejected(EngineException);
        }
        if playing {
          ok := player.Pause();
          ok := player.SeekTo(0);
        }
      }
      reply := Resolved(Nothing);
    }

    method Reset(key: Key) returns (reply: Reply)
      requires Valid()
      modifies PlayerAt(key)
      ensures Valid() && OthersUnchanged(key)
      ensures old(Lookup(key)) == null ==> reply == Resolved(Nothing)
      ensures old(Lookup(key)) != null ==>
                var e := old(Lookup(key).state);
                if e.faulted then reply == Rejected(EngineException) && Lookup(key).state == e
                else reply == Resolved(Nothing) && Lookup(key).state == AfterReset(e)
    {
      var player := Lookup(key);
      if player != null {
        var ok := player.Reset();
        if !ok {
          return Rejected(EngineException);
        }
      }
      reply := Resolved(Nothing);
    }

    /** Clears the three listeners, releases the player and unmaps the key. If the release
        throws, the listeners are gone but the key stays mapped. */
    method Release(key: Key) returns (reply: Reply)
      requires Valid()
      modifies this, PlayerAt(key)
      ensures Valid() && OthersUnchanged(key)
      ensures errorCallbackPool == old(errorCallbackPool) && invoked == old(invoked)
      ensures focusRequest == old(focusRequest) && afChangeListener == old(afChangeListener)
      ensures onAudioFocus == old(onAudioFocus)
      ensures old(Lookup(key)) == null ==> reply == Resolved(Nothing) && playerPool == old(playerPool)
      ensures old(Lookup(key)) != null ==>
                var p, e := old(Lookup(key)), old(Lookup(key).state);
                if e.faulted then
                  reply == Rejected(EngineException) && playerPool == old(playerPool) && p.state == Detached(e)
                else
                  reply == Resolved(Nothing) && playerPool == old(playerPool) - {key} &&
                  p.state == Detached(e).(released := true, playing := false)
    {
      var player := Lookup(key);
      if player != null {
        player.SetOnCompletionListener(None);
        player.SetOnPreparedListener(None);
        player.SetOnErrorListener(None);
        var ok := player.Release();
        if !ok {
          return Rejected(EngineException);
        }
        playerPool := playerPool - {key};
      }
      reply := Resolved(Nothing);
    }

    method SetVolume(key: Key, left: real, right: real) returns (reply: Reply)
      requires Valid()
      modifies PlayerAt(key)
      ensures Valid() && OthersUnchanged(key)
      ensures old(Lookup(key)) == null ==> reply == Resolved(Nothing)
      ensures old(Lookup(key)) != null ==>
                var e := old(Lookup(key).state);
                if e.faulted then reply == Rejected(EngineException) && Lookup(key).state == e
                else reply == Resolved(Nothing) && Lookup(key).state == e.(left := left, right := right)
    {
      var player := Lookup(key);
      if player != null {
        var ok := player.SetVolume(left, right);
        if !ok {
          return Rejected(EngineException);
        }
      }
      reply := Resolved(Nothing);
    }

    method SetLooping(key: Key, looping: bool) returns (reply: Reply)
      requires Valid()
      modifies PlayerAt(key)
      ensures Valid() && OthersUnchanged(key)
      ensures old(Lookup(key)) == null ==> reply == Resolved(Nothing)
      ensures old(Lookup(key)) != null ==>
                var e := old(Lookup(key).state);
                if e.faulted then reply == Rejected(EngineException) && Lookup(key).state == e
                else reply == Resolved(Nothing) && Lookup(key).state == e.(looping := looping)
    {
      var player := Lookup(key);
      if player != null {
        var ok := player.SetLooping(looping);
        if !ok {
          return Rejected(EngineException);
        }
      }
      reply := Resolved(Nothing);
    }

    method SetSpeed(key: Key, speed: real) returns (reply: Reply)
      requires Valid()
      modifies PlayerAt(key)
      ensures Valid() && OthersUnchanged(key)
      ensures old(Lookup(key)) == null ==> reply == Resolved(Nothing)
      ensures old(Lookup(key)) != null ==>
                var e := old(Lookup(key).state);
                if e.faulted then reply == Rejected(EngineException) && Lookup(key).state == e
                else reply == Resolved(Nothing) && Lookup(key).state == WithSpeed(e, speed)
    {
      var player := Lookup(key);
      if player != null {
        var ok := player.SetSpeed(speed);
        if !ok {
          return Rejected(EngineException);
        }
      }
      reply := Resolved(Nothing);
    }

    method SetCurrentMillis(key: Key, ms: int) returns (reply: Reply)
      requires Valid()
      modifies PlayerAt(key)
      ensures Valid() && OthersUnchanged(key)
      ensures old(Lookup(key)) == null ==> reply == Resolved(Nothing)
      ensures old(Lookup(key)) != null ==>
                var e := old(Lookup(key).state);
                if e.faulted then reply == Rejected(EngineException) && Lookup(key).state == e
                else reply == Resolved(Nothing) && Lookup(key).state == e.(position := ms)
    {
      var player := Lookup(key);
      if player != null {
        var ok := player.SeekTo(ms);
        if !ok {
          return Rejected(EngineException);
        }
      }
      reply := Resolved(Nothing);
    }

    /** The player's position, or -1 for a missing key. */
    method GetCurrentMillis(key: Key) returns (reply: Reply)
      ensures Lookup(key) == null ==> reply == Resolved(IntValue(-1))
      ensures Lookup(key) != null ==>
                reply == if Lookup(key).state.faulted then Rejected(EngineException)
                         else Resolved(IntValue(Lookup(key).state.position))
    {
      var player := Lookup(key);
      if player == null {
        return Resolved(IntValue(-1));
      }
      var ok, ms := player.GetCurrentPosition();
      reply := if ok then Resolved(IntValue(ms)) else Rejected(EngineException);
    }

    /** Whether the player is playing, or false for a missing key. */
    method IsPlaying(key: Key) returns (reply: Reply)
      ensures Lookup(key) == null ==> reply == Resolved(BoolValue(false))
      ensures Lookup(key) != null ==>
                reply == if Lookup(key).state.faulted then Rejected(EngineException)
                         else Resolved(BoolValue(Lookup(key).state.playing))
    {
      var player := Lookup(key);
      if player == null {
        return Resolved(BoolValue(false));
      }
      var ok, playing := player.IsPlaying();
      reply := if ok then Resolved(BoolValue(playing)) else Rejected(EngineException);
    }

    /** The platform finished preparing `p`: its prepared listener, if still attached, resolves the
        load's promise with the duration, or rejects it when reading the duration throws. */
    method Prepared(p: MediaPlayer, duration: int) returns (delivery: Option<(PromiseId, Reply)>)
      requires Valid()
      requires p.state.preparing && !p.state.released
      modifies p
      ensures Valid()
      ensures p.state == old(p.state).(preparing := false, prepared := true, duration := duration)
      ensures delivery == match old(p.state.onPrepared)
                          case None => None
                          case Some(l) =>
                            Some((l.promise, if p.state.faulted then Rejected(EngineException)
                                             else Resolved(IntValue(duration))))
    {
      p.state := p.state.(preparing := false, prepared := true, duration := duration);
      delivery := None;
      match p.state.onPrepared
      case None =>
      case Some(l) =>
        var ok, ms := p.GetDuration();
        delivery := Some((l.promise, if ok then Resolved(IntValue(ms)) else Rejected(EngineException)));
    }

    /** Invokes a bridge callback once; a second invocation throws, and the listeners that call
        this catch it. */
    method Dispatch(callback: CallbackId) returns (delivered: bool)
      modifies this
      ensures delivered == (callback !in old(invoked))
      ensures invoked == old(invoked) + {callback}
      ensures playerPool == old(playerPool) && errorCallbackPool == old(errorCallbackPool)
      ensures focusRequest == old(focusRequest) && afChangeListener == old(afChangeListener)
      ensures onAudioFocus == old(onAudioFocus)
    {
      delivered := callback !in invoked;
      invoked := invoked + {callback};
    }

    /** The platform reached the end of `p`'s stream. A looping player wraps around and its
        completion callback is not invoked; otherwise playback ends and the callback attached
        by `setOnCompletionListener` is invoked, at most once over its lifetime. */
    method PlaybackEnded(p: MediaPlayer) returns (delivered: Option<CallbackId>)
      requires Valid()
      requires p.state.playing && !p.state.released
      modifies this, p
      ensures Valid()
      ensures playerPool == old(playerPool) && errorCallbackPool == old(errorCallbackPool)
      ensures focusRequest == old(focusRequest) && afChangeListener == old(afChangeListener)
      ensures onAudioFocus == old(onAudioFocus)
      ensures p.state == if old(p.state.looping) then old(p.state) else old(p.state).(playing := false)
      ensures var l := old(p.state.onCompletion);
              if !old(p.state.looping) && l.Some? then
                invoked == old(invoked) + {l.value.callback} &&
                delivered == if l.value.callback in old(invoked) then None else Some(l.value.callback)
              else invoked == old(invoked) && delivered == None
    {
      var looping := p.IsLooping();
      if !looping {
        p.state := p.state.(playing := false);
      }
      delivered := None;
      match p.state.onCompletion
      case None =>
      case Some(l) =>
        looping := p.IsLooping();
        if !looping {
          var ok := Dispatch(l.callback);
          if ok {
            delivered := Some(l.callback);
          }
        }
    }

    /** The platform reports an error on `p`. Its error listener looks the callback up by the key
        the listener was created for, invokes it if there is one, and reports the error handled. */
    method EngineError(p: MediaPlayer, what: JavaInt, extra: JavaInt)
      returns (handled: bool, delivered: Option<(CallbackId, ErrorData)>)
      modifies this
      ensures playerPool == old(playerPool) && errorCallbackPool == old(errorCallbackPool)
      ensures focusRequest == old(focusRequest) && afChangeListener == old(afChangeListener)
      ensures onAudioFocus == old(onAudioFocus)
      ensures handled <==> p.state.onError.Some?
      ensures var l := p.state.onError;
              if l.Some? && l.value.key in errorCallbackPool then
                var cb := errorCallbackPool[l.value.key];
                invoked == old(invoked) + {cb} &&
                delivered == if cb in old(invoked) then None else Some((cb, ErrorData(what, extra)))
              else invoked == old(invoked) && delivered == None
    {
      delivered := None;
      match p.state.onError
      case None =>
        handled := false;
      case Some(l) =>
        if l.key in errorCallbackPool {
          var cb := errorCallbackPool[l.key];
          var ok := Dispatch(cb);
          if ok {
            delivered := Some((cb, ErrorData(what, extra)));
          }
        }
        handled := true;
    }

    /** The player under `key` starts throwing from its engine calls, after which the module's
        verbs on that key take their `catch` paths. Nothing else changes. */
    method EngineFaulted(key: Key)
      requires Valid()
      modifies this, PlayerAt(key)
      ensures Valid() && OthersUnchanged(key)
      ensures playerPool == old(playerPool) && errorCallbackPool == old(errorCallbackPool)
      ensures focusRequest == old(focusRequest) && afChangeListener == old(afChangeListener)
      ensures onAudioFocus == old(onAudioFocus) && invoked == old(invoked)
      ensures Lookup(key) != null ==> Lookup(key).state == old(Lookup(key).state).(faulted := true)
    {
      if key in playerPool && playerPool[key] != null {
        playerPool[key].Fault();
      }
    }

    /** The focus-change listener is created on first use and the same object is returned after. */
    method GetAudioFocusListener() returns (listener: FocusChangeListener)
      modifies this
      ensures old(afChangeListener) != null ==> listener == old(afChangeListener)
      ensures old(afChangeListener) == null ==> fresh(listener)
      ensures afChangeListener == listener
      ensures playerPool == old(playerPool) && errorCallbackPool == old(errorCallbackPool)
      ensures focusRequest == old(focusRequest) && onAudioFocus == old(onAudioFocus)
      ensures invoked == old(invoked)
    {
      if afChangeListener == null {
        afChangeListener := new FocusChangeListener();
      }
      listener := afChangeListener;
    }

    /** Asks the audio manager for focus with the shared listener; from Android O on the request
        object is kept for `abandonAudioFocus`. `result` is the audio manager's answer. */
    method RequestAudioFocus(options: Options, sdk: int, result: int) returns (reply: Reply, call: FocusCall)
      modifies this
      ensures old(afChangeListener) != null ==> afChangeListener == old(afChangeListener)
      ensures afChangeListener != null
      ensures sdk < O ==>
                call == RequestWithListener(afChangeListener, AudioStreamType(options), AudioFocusType(sdk, options)) &&
                focusRequest == old(focusRequest)
      ensures sdk >= O ==>
                focusRequest == Some(FocusRequest(AudioFocusType(sdk, options), GetAudioAttributes(options), afChangeListener)) &&
                call == RequestWithRequest(focusRequest.value)
      ensures reply == Resolved(TextValue(FocusRequestResult(sdk, result)))
      ensures playerPool == old(playerPool) && errorCallbackPool == old(errorCallbackPool)
      ensures onAudioFocus == old(onAudioFocus) && invoked == old(invoked)
    {
      var listener := GetAudioFocusListener();
      if sdk < O {
        call := RequestWithListener(listener, AudioStreamType(options), AudioFocusType(sdk, options));
      } else {
        focusRequest := Some(FocusRequest(AudioFocusType(sdk, options), GetAudioAttributes(options), listener));
        call := RequestWithRequest(focusRequest.value);
      }
      reply := Resolved(TextValue(FocusRequestResult(sdk, result)));
    }

    method SetAudioFocusListener(onFocus: CallbackId)
      modifies this
      ensures onAudioFocus == Some(onFocus)
      ensures playerPool == old(playerPool) && errorCallbackPool == old(errorCallbackPool)
      ensures focusRequest == old(focusRequest) && afChangeListener == old(afChangeListener)
      ensures invoked == old(invoked)
    {
      onAudioFocus := Some(onFocus);
    }

    /** Before Android O focus is abandoned by listener; from O on by the last request, if one was
        made. The stored request is not cleared. */
    method AbandonAudioFocus(sdk: int) returns (reply: Reply, call: Option<FocusCall>)
      modifies this
      ensures reply == Resolved(Nothing)
      ensures old(afChangeListener) != null ==> afChangeListener == old(afChangeListener)
      ensures sdk < O ==> afChangeListener != null && call == Some(AbandonWithListener(afChangeListener))
      ensures sdk >= O ==> afChangeListener == old(afChangeListener) &&
                           call == if focusRequest.Some? then Some(AbandonWithRequest(focusRequest.value)) else None
      ensures focusRequest == old(focusRequest)
      ensures playerPool == old(playerPool) && errorCallbackPool == old(errorCallbackPool)
      ensures onAudioFocus == old(onAudioFocus) && invoked == old(invoked)
    {
      reply := Resolved(Nothing);
      if sdk < O {
        var listener := GetAudioFocusListener();
        call := Some(AbandonWithListener(listener));
      } else if focusRequest.Some? {
        call := Some(AbandonWithRequest(focusRequest.value));
      } else {
        call := None;
      }
    }

    /** The platform reports a focus change to the shared listener, which forwards its name to the
        focus callback when one is set. */
    method OnAudioFocusChange(code: int) returns (dispatch: FocusDispatch)
      requires afChangeListener != null
      modifies this
      ensures onAudioFocus.None? ==> dispatch == Dropped && invoked == old(invoked)
      ensures onAudioFocus.Some? ==>
                invoked == old(invoked) + {onAudioFocus.value} &&
                dispatch == if onAudioFocus.value in old(invoked) then Raised
                            else Delivered(onAudioFocus.value, FocusChangeName(code))
      ensures playerPool == old(playerPool) && errorCallbackPool == old(errorCallbackPool)
      ensures focusRequest == old(focusRequest) && afChangeListener == old(afChangeListener)
      ensures onAudioFocus == old(onAudioFocus)
    {
      var focusType := FocusChangeName(code);
      match onAudioFocus
      case None =>
        dispatch := Dropped;
      case Some(cb) =>
        var ok := Dispatch(cb);
        dispatch := if ok then Delivered(cb, focusType) else Raised;
    }

    /** Clears `player`'s listeners and, unless the engine throws, stops it if playing, resets it
        and releases it. */
    static method TearDown(player: MediaPlayer)
      modifies player
      ensures player.state == TornDown(old(player.state))
    {
      player.SetOnCompletionListener(None);
      player.SetOnPreparedListener(None);
      player.SetOnErrorListener(None);
      var ok, playing := player.IsPlaying();
      if ok {
        if playing {
          ok := player.Stop();
        }
        ok := player.Reset();
        ok := player.Release();
      }
    }

    /** A load followed by a release of the same key: the key ends unmapped, the new player ends
        released with no listeners, and the pool is otherwise as before the load, except that a
        player the load displaced stays unreleased and out of reach. */
    method LoadThenRelease(key: Key, dataSource: string, options: Options, promise: PromiseId, device: Device, sdk: int)
      returns (loadReply: Reply, releaseReply: Reply, player: MediaPlayer)
      requires Valid()
      modifies this
      ensures Valid()
      ensures fresh(player) && player.state.released && !player.state.playing
      ensures player.state.onCompletion.None? && player.state.onPrepared.None? && player.state.onError.None?
      ensures playerPool == old(playerPool) - {key} && Lookup(key) == null
      ensures releaseReply == Resolved(Nothing)
      ensures loadReply == if Classify(device, dataSource).Ok? then Pending else Rejected(SourceFailure(Classify(device, dataSource).error))
    {
      loadReply, player := Load(key, dataSource, options, promise, device, sdk);
      releaseReply := Release(key);
    }

    /** At the end of the application every mapped player is visited: its listeners are cleared
        and it is stopped if playing, reset and released; a player whose engine throws is left
        after the listeners are cleared and the loop goes on. The pool ends empty. */
    method OnCatalystInstanceDestroy()
      requires Valid()
      modifies this, Players()
      ensures Valid()
      ensures playerPool == map[]
      ensures forall k :: k in old(playerPool) && old(playerPool[k]) != null ==>
                old(playerPool[k]).state == TornDown(old(playerPool[k].state))
      ensures errorCallbackPool == old(errorCallbackPool) && invoked == old(invoked)
      ensures focusRequest == old(focusRequest) && afChangeListener == old(afChangeListener)
      ensures onAudioFocus == old(onAudioFocus)
    {
      var entries := playerPool.Keys;
      while entries != {}
        invariant entries <= playerPool.Keys
        invariant playerPool == old(playerPool)
        invariant forall k :: k in entries && playerPool[k] != null ==>
                    playerPool[k].state == old(playerPool[k].state)
        invariant forall k :: k in playerPool && k !in entries && playerPool[k] != null ==>
                    playerPool[k].state == TornDown(old(playerPool[k].state))
        invariant errorCallbackPool == old(errorCallbackPool) && invoked == old(invoked)
        invariant focusRequest == old(focusRequest) && afChangeListener == old(afChangeListener)
        invariant onAudioFocus == old(onAudioFocus)
        decreases entries
      {
        EmptyOrHasKey(entries);
        var key :| key in entries;
        entries := entries - {key};
        var player := playerPool[key];
        if player != null {
          TearDown(player);
        }
      }
      playerPool := map[];
    }
  }
}
