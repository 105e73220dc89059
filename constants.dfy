/** The fixed configuration values of the reel editor (src/constants.ts). */
module Constants {
  /** Target aspect ratio of an Instagram reel, as a `width:height` string. */
  const INSTAGRAM_ASPECT_RATIO: string := "9:16"
  const SUBTITLE_API_URL: string := "http://127.0.0.1:5000/subtitles"
  /** Base name of the reel when no usable video title is known. */
  const DEFAULT_REEL_FILENAME: string := "convertedReel"

  // Temporary artifacts, at fixed paths relative to the working directory.
  const VIDEO_PATH: string := "./videoToConvert.mp4"
  const AUDIO_PATH: string := "./audioToConvert.mp3"
  const TRIMMED_AUDIO_PATH: string := "./trimmedAudioToConvert.mp3"
  /** Directory the subtitle service writes `subtitles.srt` into. */
  const SRT_SAVE_LOCATION: string := "./"
}
