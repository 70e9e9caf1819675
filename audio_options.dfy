/** The pure option and code mappings of the native module: which output channel a player or a
    focus request uses, which focus gain a request asks for, and the names the module reports
    for focus request results and focus changes. */
module AudioOptions {
  import opened Wrappers
  import opened AndroidApi

  /** The options map a caller passes with `load` and `requestAudioFocus`: each recognised key is
      either absent or present with its value. */
  datatype Options = Options(useAlarmChannel: Option<bool>, audioFocusType: Option<string>)

  datatype AudioAttributes = AudioAttributes(usage: int, contentType: int)

  /** How a player's output is routed: by stream type before Lollipop, by attributes from it on. */
  datatype AudioSetup = StreamType(stream: int) | Attributes(attributes: AudioAttributes)

  /** `useAlarmChannel` defaults to false when the key is absent. */
  function UseAlarmChannel(options: Options): (b: bool)
    ensures b <==> options.useAlarmChannel == Some(true)
  {
    options.useAlarmChannel.GetOr(false)
  }

  function AudioStreamType(options: Options): (stream: int)
    ensures stream == STREAM_ALARM || stream == STREAM_MUSIC
    ensures stream == STREAM_ALARM <==> UseAlarmChannel(options)
  {
    if UseAlarmChannel(options) then STREAM_ALARM else STREAM_MUSIC
  }

  function GetAudioAttributes(options: Options): (a: AudioAttributes)
    ensures a.usage == USAGE_ALARM || a.usage == USAGE_MEDIA
    ensures a.usage == USAGE_ALARM <==> UseAlarmChannel(options)
    ensures a.contentType == CONTENT_TYPE_MUSIC
  {
    AudioAttributes(if UseAlarmChannel(options) then USAGE_ALARM else USAGE_MEDIA, CONTENT_TYPE_MUSIC)
  }

  function ApplyAudioOptions(sdk: int, options: Options): (setup: AudioSetup)
    ensures setup.StreamType? <==> sdk < LOLLIPOP
  {
    if sdk < LOLLIPOP then StreamType(AudioStreamType(options))
    else Attributes(GetAudioAttributes(options))
  }

  predicate RoutesToAlarm(setup: AudioSetup) {
    match setup
    case StreamType(stream) => stream == STREAM_ALARM
    case Attributes(a) => a.usage == USAGE_ALARM
  }

  /** On every SDK level the player goes to the alarm channel exactly when `useAlarmChannel` is
      true, whichever of the two routing mechanisms that level uses. */
  lemma AlarmRoutingAgrees(sdk: int, options: Options)
    ensures RoutesToAlarm(ApplyAudioOptions(sdk, options)) <==> UseAlarmChannel(options)
  {
  }

  /** The option names of the four focus gains. */
  function FocusGainName(gain: int): string {
    if gain == AUDIOFOCUS_GAIN_TRANSIENT then "gainTransient"
    else if gain == AUDIOFOCUS_GAIN_TRANSIENT_MAY_DUCK then "gainTransientMayDuck"
    else if gain == AUDIOFOCUS_GAIN_TRANSIENT_EXCLUSIVE then "gainTransientExclusive"
    else "gain"
  }

  predicate IsFocusGain(gain: int) {
    AUDIOFOCUS_GAIN <= gain <= AUDIOFOCUS_GAIN_TRANSIENT_EXCLUSIVE
  }

  /** The focus gain a request asks for, comparing `audioFocusType` by its text. An absent or
      unrecognised value asks for a permanent gain; before KitKat an exclusive transient gain
      falls back to a plain transient one. */
  function AudioFocusType(sdk: int, options: Options): (gain: int)
    ensures IsFocusGain(gain)
    ensures options.audioFocusType.None? ==> gain == AUDIOFOCUS_GAIN
    ensures options.audioFocusType.Some? &&
            options.audioFocusType.value !in {"gainTransient", "gainTransientMayDuck", "gainTransientExclusive"}
            ==> gain == AUDIOFOCUS_GAIN
    ensures sdk < KITKAT ==> gain != AUDIOFOCUS_GAIN_TRANSIENT_EXCLUSIVE
    ensures options.audioFocusType == Some("gainTransientExclusive") && sdk < KITKAT ==>
              gain == AUDIOFOCUS_GAIN_TRANSIENT
  {
    match options.audioFocusType
    case None => AUDIOFOCUS_GAIN
    case Some(t) =>
      if t == "gainTransient" then AUDIOFOCUS_GAIN_TRANSIENT
      else if t == "gainTransientMayDuck" then AUDIOFOCUS_GAIN_TRANSIENT_MAY_DUCK
      else if t == "gainTransientExclusive" then
        (if sdk < KITKAT then AUDIOFOCUS_GAIN_TRANSIENT else AUDIOFOCUS_GAIN_TRANSIENT_EXCLUSIVE)
      else AUDIOFOCUS_GAIN
  }

  /** Naming a gain selects exactly that gain, at every SDK level for the gains that level
      offers: the exclusive transient gain exists from KitKat on. */
  lemma AudioFocusTypeRoundTrip(sdk: int, gain: int, alarm: Option<bool>)
    requires IsFocusGain(gain) && (sdk >= KITKAT || gain != AUDIOFOCUS_GAIN_TRANSIENT_EXCLUSIVE)
    ensures AudioFocusType(sdk, Options(alarm, Some(FocusGainName(gain)))) == gain
  {
  }

  /** A Java string reference: its characters, and whether it is the interned instance that a
      string literal with the same characters denotes. */
  datatype JavaString = JavaString(text: string, interned: bool)

  /** Java's `==` between a string reference and a literal compares references. */
  predicate SameReference(s: JavaString, literal: string) {
    s.interned && s.text == literal
  }

  /** The focus gain as the source computes it, with `type == "gainTransient"` and its two
      siblings comparing references rather than text. */
  function AudioFocusTypeAsWritten(sdk: int, audioFocusType: Option<JavaString>): (gain: int)
    ensures IsFocusGain(gain)
  {
    match audioFocusType
    case None => AUDIOFOCUS_GAIN
    case Some(t) =>
      if SameReference(t, "gainTransient") then AUDIOFOCUS_GAIN_TRANSIENT
      else if SameReference(t, "gainTransientMayDuck") then AUDIOFOCUS_GAIN_TRANSIENT_MAY_DUCK
      else if SameReference(t, "gainTransientExclusive") then
        (if sdk < KITKAT then AUDIOFOCUS_GAIN_TRANSIENT else AUDIOFOCUS_GAIN_TRANSIENT_EXCLUSIVE)
      else AUDIOFOCUS_GAIN
  }

  /** A string built by the bridge from the caller's options is a fresh, non-interned object, so
      the reference comparisons never succeed and every request asks for a permanent gain. */
  lemma AsWrittenIgnoresBridgeStrings(sdk: int, audioFocusType: Option<JavaString>)
    requires audioFocusType.Some? ==> !audioFocusType.value.interned
    ensures AudioFocusTypeAsWritten(sdk, audioFocusType) == AUDIOFOCUS_GAIN
  {
  }

  /** The witness: `{audioFocusType: "gainTransient"}` asks for a permanent gain as written and for
      a transient gain when the text is compared. */
  lemma AsWrittenDiffersOnGainTransient()
    ensures AudioFocusTypeAsWritten(O, Some(JavaString("gainTransient", false))) == AUDIOFOCUS_GAIN
    ensures AudioFocusType(O, Options(None, Some("gainTransient"))) == AUDIOFOCUS_GAIN_TRANSIENT
  {
  }

  /** How a text comparison and a reference comparison agree: when the reference is the
      interned literal, the source's computation is the intended one. */
  lemma AsWrittenAgreesOnInternedStrings(sdk: int, t: Option<JavaString>, alarm: Option<bool>)
    requires t.Some? ==> t.value.interned
    ensures AudioFocusTypeAsWritten(sdk, t) ==
            AudioFocusType(sdk, Options(alarm, if t.Some? then Some(t.value.text) else None))
  {
  }

  /** The name a focus request resolves with. Before Android O the platform answers granted or
      not; from O on it can also delay the grant. */
  function FocusRequestResult(sdk: int, result: int): (name: string)
    ensures name == "granted" || name == "delayed" || name == "failed"
    ensures name == "granted" <==> result == AUDIOFOCUS_REQUEST_GRANTED
    ensures name == "delayed" <==> sdk >= O && result == AUDIOFOCUS_REQUEST_DELAYED
  {
    if sdk < O then
      (if result == AUDIOFOCUS_REQUEST_GRANTED then "granted" else "failed")
    else if result == AUDIOFOCUS_REQUEST_GRANTED then "granted"
    else if result == AUDIOFOCUS_REQUEST_DELAYED then "delayed"
    else "failed"
  }

  predicate IsFocusChangeCode(code: int) {
    code == AUDIOFOCUS_GAIN || code == AUDIOFOCUS_LOSS ||
    code == AUDIOFOCUS_LOSS_TRANSIENT || code == AUDIOFOCUS_LOSS_TRANSIENT_CAN_DUCK
  }

  /** The name a focus change is reported under; any other code is reported as null. */
  function FocusChangeName(code: int): (name: Option<string>)
    ensures name.Some? <==> IsFocusChangeCode(code)
  {
    if code == AUDIOFOCUS_GAIN then Some("gain")
    else if code == AUDIOFOCUS_LOSS then Some("loss")
    else if code == AUDIOFOCUS_LOSS_TRANSIENT then Some("lossTransient")
    else if code == AUDIOFOCUS_LOSS_TRANSIENT_CAN_DUCK then Some("lossTransientCanDuck")
    else None
  }

  /** The reverse table, as a listener that receives a name would read it. */
  function FocusChangeCode(name: string): Option<int> {
    if name == "gain" then Some(AUDIOFOCUS_GAIN)
    else if name == "loss" then Some(AUDIOFOCUS_LOSS)
    else if name == "lossTransient" then Some(AUDIOFOCUS_LOSS_TRANSIENT)
    else if name == "lossTransientCanDuck" then Some(AUDIOFOCUS_LOSS_TRANSIENT_CAN_DUCK)
    else None
  }

  /** The four names identify their codes: a listener can recover the code from the name, so no
      two changes share a name. */
  lemma FocusChangeNameRoundTrip(code: int)
    requires IsFocusChangeCode(code)
    ensures FocusChangeCode(FocusChangeName(code).value) == Some(code)
  {
  }
}
