/** The Android platform constants the native module uses, with the values the Android SDK gives them. */
module AndroidApi {

  /** The range of Java's 32-bit `int`. */
  predicate IsJavaInt(i: int) {
    -0x8000_0000 <= i < 0x8000_0000
  }

  type JavaInt = i: int | IsJavaInt(i)

  // Build.VERSION_CODES
  const KITKAT := 19
  const LOLLIPOP := 21
  const O := 26

  // AudioManager stream types
  const STREAM_MUSIC := 3
  const STREAM_ALARM := 4

  // AudioAttributes usages and content types
  const USAGE_MEDIA := 1
  const USAGE_ALARM := 4
  const CONTENT_TYPE_MUSIC := 2

  // AudioManager focus gains and losses (the first four are also focus-change codes)
  const AUDIOFOCUS_GAIN := 1
  const AUDIOFOCUS_GAIN_TRANSIENT := 2
  const AUDIOFOCUS_GAIN_TRANSIENT_MAY_DUCK := 3
  const AUDIOFOCUS_GAIN_TRANSIENT_EXCLUSIVE := 4
  const AUDIOFOCUS_LOSS := -1
  const AUDIOFOCUS_LOSS_TRANSIENT := -2
  const AUDIOFOCUS_LOSS_TRANSIENT_CAN_DUCK := -3

  // AudioManager focus request results
  const AUDIOFOCUS_REQUEST_FAILED := 0
  const AUDIOFOCUS_REQUEST_GRANTED := 1
  const AUDIOFOCUS_REQUEST_DELAYED := 2
}
