/** The two callback return flags of the audio backend (PyAudio) that the core uses. */
module Backend {

  /** pyaudio.paContinue and pyaudio.paComplete */
  datatype StreamSignal = Continue | Complete
}
