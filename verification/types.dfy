/** Value types shared by the audio layer and the tool handlers (src/types.ts). */
module Types {

  datatype Option<+T> = None | Some(value: T)

  /** The playback method tag of an audio result: 'paplay' | 'bundled-audio' | 'none'. */
  datatype Method = Paplay | BundledAudio | NoMethod

  /** AudioConfig: an optional custom audio file and two on/off switches. */
  datatype AudioConfig = AudioConfig(
    customAudioPath: Option<string>,
    enableAudio: bool,
    enableDesktopNotification: bool)

  /** AudioResult: the outcome record of one playback, never thrown; `via` is the source's `method` field. */
  datatype AudioResult = AudioResult(success: bool, via: Method, error: Option<string>)

  /** SoundType: 'success' | 'error' | 'info'. */
  datatype SoundType = SuccessSound | ErrorSound | InfoSound

  function SoundName(s: SoundType): (name: string)
    ensures |name| > 0
  {
    match s
    case SuccessSound => "success"
    case ErrorSound => "error"
    case InfoSound => "info"
  }

  datatype NotifyParams = NotifyParams(title: string, message: string, soundType: Option<SoundType>)

  datatype TaskCompletedParams = TaskCompletedParams(message: string, soundType: Option<SoundType>)

  /**
   * A value caught by a `catch` clause: either an Error object, whose
   * `message` is read, or anything else, for which the source substitutes
   * a fixed fallback text.
   */
  datatype Thrown = ErrorObject(message: string) | NonError

  function ErrorMessage(t: Thrown, fallback: string): string {
    match t
    case ErrorObject(m) => m
    case NonError => fallback
  }
}
