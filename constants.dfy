/** The constants of constant.py and the band triple the equalizer tables hold. */
module Constants {

  /** One equalizer band as stored in a band table: the tuple (freq, gain, q). */
  datatype Band = Band(freq: real, gain: real, q: real)

  const DefaultBitDepth: int := 24
  const MaxFreq: int := 192000
  const DefaultSamplingFreq: int := MaxFreq
  const MinFreq: int := 5000
  const DefaultChunkSize: int := 1024
  const DefaultChannels: int := 2

  /** DEFAULT_EQ_BANDS = {1: (4000, -6, 1)} */
  const DefaultEqBands: map<int, Band> := map[1 := Band(4000.0, -6.0, 1.0)]

  const DefaultGlobalGain: real := 0.0
}
