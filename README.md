# PFC-StereoMic audio pipeline in Dafny

This project models the bookkeeping core of the PFC-StereoMic recorder/player, a
Python program that streams a pre-loaded sample buffer in frames, equalizes the frames
and queues them for saving. The model covers:

- **Streaming** (`audio_stream.py`, module `Streaming`). `AudioStreamer` keeps a cursor
  into the sample buffer. Each PyAudio callback slices the next
  `frame_count * channels` samples, clamped to the end of the buffer, and advances the
  cursor. The slice goes through the equalizer, is appended to the save queue and is
  returned. The class invariant says the slices served so far are exactly the buffer up
  to the cursor.
- **apply_equalizer** (`sound_processing.py`, module `SoundProcessing`):
  - each band `(freq, gain, q)` of the band table gets edges `freq ∓ freq/(2q)`;
  - the edges are normalised by the Nyquist frequency and checked against
    `0 <= low < high <= 1`;
  - scipy then refuses what that check lets through: `butter` needs `0 < low` and
    `high < 1` strictly, and `filtfilt` needs more than 27 samples;
  - every band is filtered and weighted by its gain, and the results are summed.

  An empty table returns the input unchanged. One bad band anywhere makes the whole
  call raise. The sum does not depend on the order of the bands.
- **Filters** (`filters.py`):
  - Module `Filters`:
    - `get_numpy_dtype`;
    - channel de-interleaving and re-interleaving;
    - the three filter classes, whose constructors raise when `butter` refuses the
      normalised cutoffs, and which carry one filter state per channel across calls
      and reset it when the channel count changes;
    - what `process` returns: with several channels the filtered floats are stored
      back into an array of the input's own type, so int16 and int8 samples are
      truncated toward zero and wrap, never clip; with one channel the float64 output
      of `lfilter` is returned as it is.
  - Module `FilterBank`:
    - the multi-band `Equalizer`, which sums its bands and clips the sum back to int16
      or int8;
    - `create_equalizer`, which parses `"lo-hi"` band keys and raises at the first
      entry that does not parse or that `butter` refuses;
    - the command line's choice of filter mode and the playback callback's dispatch.
  - Module `EqArgument`: the command-line equalizer string `"bass+6 mid-3 high+2"`.
- **Settings**:
  - `AudioSettings` (`audio_settings.py`, module `AudioConfig`): a band table held by
    reference, shared by every instance that starts from the module's default table.
  - `RecordingSettings` (`recording_settings.py`, module `RecordingConfig`): setters that
    validate before they write.
  - The constants of `constant.py`, in module `Constants`.

The numerical collaborators are parameters of the operations that use them:
- `bandpass` stands for scipy's Butterworth design followed by `filtfilt`;
- `butter` designs a filter whose `step` is `lfilter` with its state;
- `dbToLinear` stands for `10 ** (g / 20)`;
- `parseFloat` stands for `float()`;
- `isDir` stands for `os.path.isdir`;
- `equalize` is the streamer's equalizer call.

Each is constrained only by what the model needs: filters keep the length of their
input, on the arguments scipy accepts.
Samples are `real` in the filters and `int` in the streamer. Python's dicts of bands are
ordered association lists or Dafny maps, as their use requires.

The low-pass and high-pass classes have no gain in the source. The model's one filter
class gives them gain 1.0.

For freq 4000 and q 0.1 the bandwidth is 40000, so the code computes a lower edge of
4000 - 20000 = -16000 Hz (-4 after normalising at 8 kHz).
`SoundProcessing.RejectedExample` states that value.

## Model

| member | source | states |
|---|---|---|
| Streaming.FrameQueue.Add | audio_stream.py:137-138 | the queue gains exactly the one given frame at its end; earlier frames are unchanged |
| Streaming.ByteDepth | audio_stream.py:76 | `int(bit_depth / 8)` truncates toward zero: for non-negative depths `8r <= bit_depth < 8r + 8`, mirrored for negative ones |
| Streaming.ByteDepthOfValid | audio_stream.py:76 | both depths the recording settings accept are whole bytes: 16 gives 2, 24 gives 3, and `8 * byte_depth == bit_depth` |
| Streaming.NextCursor | audio_stream.py:118-124 | the next cursor lies between the old cursor and the buffer length; it moves by exactly `frame_count * channels` unless that would pass the end, and then it is the buffer length |
| Streaming.CursorAfter | audio_stream.py:118-130 | after any sequence of callbacks from a fresh streamer the cursor never exceeds the buffer length |
| Streaming.CursorAfterClosedForm | audio_stream.py:118-130 | after callbacks with frame counts `n1..nk` the cursor is `min((n1+..+nk) * channels, len)` |
| Streaming.CursorMonotone | audio_stream.py:118-130 | further callbacks never move the cursor back |
| Streaming.ThousandInFramesOfThree | audio_stream.py:115-130 | a 1000-sample mono buffer in frames of 300 is served as [0,300) [300,600) [600,900) [900,1000) and then [1000,1000) |
| Streaming.RangesContiguous | audio_stream.py:118-130 | the served ranges start at 0, each starts where the previous one ended, each lies inside the buffer, and the last ends at the cursor |
| Streaming.AtEndServesNothing | audio_stream.py:121-130 | once the cursor is at the end of the buffer, a callback leaves it there (the frame is empty) |
| Streaming.AudioStreamer.constructor | audio_stream.py:45-76 | a fresh streamer has cursor 0 and nothing served, keeps the settings objects, and copies rate, file name, full path, bit depth and `byte_depth = int(bit_depth / 8)` from the recording settings |
| Streaming.AudioStreamer.Callback | audio_stream.py:78-144 | the cursor moves to `NextCursor`; the returned frame is the equalizer's output on exactly `full_audio[start:end]` and has `end - start` samples; the queue gains exactly that frame; the served slices still concatenate to the buffer up to the cursor; the signal is always `paContinue` |
| SoundProcessing.BandEdges | sound_processing.py:58-61 | the band's edges are `freq/q` apart and centred on `freq` |
| SoundProcessing.CheckBand | sound_processing.py:58-74 | q = 0 or a zero rate raises ZeroDivisionError; otherwise, for a positive rate, the line-70 check raises exactly when `0 <= low < high <= rate/2` fails, and the band passes both it and `butter` exactly when `0 < low < high < rate/2`, and then yields its edges |
| SoundProcessing.NormalisedBounds | sound_processing.py:63-74 | for a positive Nyquist frequency, `0 <= low/nyq < high/nyq <= 1` holds exactly when `0 <= low < high <= nyq`, and the strict bounds `butter` needs hold exactly when `0 < low < high < nyq` |
| SoundProcessing.AcceptedExample | sound_processing.py:58-71 | freq 4000, q 1 at 192 kHz gives edges 2000 and 6000, accepted |
| SoundProcessing.RejectedExample | sound_processing.py:58-71 | freq 4000, q 0.1 at 8 kHz gives edges -16000 and 24000, rejected with normalised limits -4 and 6 |
| SoundProcessing.EdgeAtZeroExample | sound_processing.py:58-74 | freq 1000, q 0.5 at 8 kHz gives edges 0 and 2000: the line-70 check lets it through and `butter` raises |
| SoundProcessing.FilterCheck | sound_processing.py:58-77 | a band goes through exactly when it passes `CheckBand` and the input is longer than `filtfilt`'s padding of 27 samples; otherwise `CheckBand`'s error, or ValueError for the short input |
| SoundProcessing.Contribution | sound_processing.py:73-78 | one band's weighted, filtered output is as long as the input |
| SoundProcessing.Accumulate | sound_processing.py:54-78 | the loop over the bands, from zeros, stopping at the first band that raises; a completed loop gives a signal as long as the input |
| SoundProcessing.Equalize | sound_processing.py:49-80 | an empty band table gives back the input itself; a result is as long as the input |
| SoundProcessing.ApplyEqualizer | sound_processing.py:20-80 | the loop computes exactly `Equalize`: an empty table returns the input itself, otherwise the accumulated sum or the first band's error; a result is as long as the input |
| SoundProcessing.AccumulateErrorSticks | sound_processing.py:57-71 | once a band has raised, the later bands cannot change the outcome |
| SoundProcessing.AccumulateOkIff | sound_processing.py:57-77 | the loop completes exactly when every band passes the line-70 check and `butter`, and the input is longer than 27 samples (or there are no bands) |
| SoundProcessing.AccumulateFirstError | sound_processing.py:57-77 | the error raised is that of the first failing band in iteration order, even when the bands before it were valid |
| SoundProcessing.AccumulateIsBandSum | sound_processing.py:54-78 | each output sample is the sum over the bands of `filtered * gainlin(gain)` at that sample |
| SoundProcessing.BandSumPermutation | sound_processing.py:57-78 | the per-sample band sum is the same for any reordering of the bands |
| SoundProcessing.EqualizeOrderIndependent | sound_processing.py:49-80 | two iteration orders of the same bands both raise or both succeed, with the same output |
| Filters.GetNumpyDtype | filters.py:18-27 | width 1 gives int8 and every other width (2, 3, ...) gives int16 |
| Filters.Scale | filters.py:188-201 | the gain is applied sample by sample and keeps the length |
| Filters.Stride | filters.py:75 | `s[i::c]` has as many samples as channel i owns in the buffer |
| Filters.StrideAt | filters.py:75 | position j of channel i holds buffer sample `i + j*c` |
| Filters.Deinterleave | filters.py:75 | splitting gives one sequence per channel |
| Filters.Interleave | filters.py:83-85 | the re-interleaved buffer is as long as the input |
| Filters.InterleaveDeinterleave | filters.py:75-85 | the split channels fit the buffer, and interleaving them back gives the input unchanged |
| Filters.TruncateTowardZero | filters.py:83-85 | a float stored into an integer array loses its fraction toward zero |
| Filters.Wrap | filters.py:83-85 | a whole number stored into int16 or int8 lands in the type's range, differs from the number by a multiple of 2^16 or 2^8, and is kept when already in range |
| Filters.StoreSample | filters.py:83-85 | stored into int16 or int8 a float becomes a whole number in the type's range, equal to its truncation toward zero when in range, never clipped; float types keep it |
| Filters.StoreAll | filters.py:83-85 | storing applies sample by sample and keeps the length |
| Filters.StoreSampleExamples | filters.py:83-85 | in int16, 1.7 is stored as 1, -1.7 as -1 and 40000 as -25536 |
| Filters.StoreRepresentable | filters.py:83-85 | samples the type holds exactly are stored unchanged |
| Filters.InterleaveInto | filters.py:83-85 | filling `np.empty(dtype=audio_data.dtype)` with `filtered_data[i::c] = channel` for every channel yields exactly the interleaved buffer stored into the input's type: output sample k is channel `k % c` at position `k / c`, truncated and wrapped for integer types |
| Filters.StoreStride | filters.py:85 | one assignment `filtered_data[i::c] = channel` stores channel sample `k / c` at every position k with `k % c == i` and leaves the other positions as they were |
| Filters.StartStates | filters.py:68-70 | the states a call starts from: one fresh `lfilter_zi` per channel when there are none or the channel count changed, otherwise the carried ones; always one per channel |
| Filters.FilteredChannels | filters.py:185-190 | each channel's filtered, gain-scaled output fits that channel's share of the buffer |
| Filters.FinalStates | filters.py:188-189 | one final state per channel |
| Filters.ProcessSpec | filters.py:166-201 | a call's output is as long as its input, and it leaves a well-formed state recording the channel count |
| Filters.PassThroughFilter | filters.py:166-201 | with a filter that passes samples through and gain 1, process returns its input for any channel count when the input's type holds its samples exactly |
| Filters.ChannelFilter.constructor | filters.py:50-54 | a filter holds the given design and gain and no state yet |
| Filters.LowPassFilter | filters.py:41-54 | a zero rate raises ZeroDivisionError; otherwise the filter is built exactly when `butter` accepts `cutoff / (0.5 * rate)` (ValueError else), with that low-pass design, gain 1 and no state yet |
| Filters.HighPassFilter | filters.py:94-107 | the same as the low-pass constructor, with a high-pass design |
| Filters.BandFilter | filters.py:147-164 | a zero rate raises ZeroDivisionError; otherwise the filter is built exactly when `butter` accepts both edges divided by `0.5 * rate` (ValueError else), with that band-pass design, gain `10 ** (gain_db / 20)` and no state yet |
| Filters.CutoffAcceptedIff | filters.py:50-52 | for a positive rate, `butter` accepts the normalised cutoff exactly when `0 < cutoff < rate/2` |
| Filters.BandFilterAcceptsIff | filters.py:158-161 | for a positive rate, `butter` accepts the normalised band exactly when `0 < low < high < rate/2` |
| Filters.ChannelFilter.Process | filters.py:166-201 | the returned samples and the new `zi`/`channels` are exactly `ProcessSpec` of the old state: reset on a channel-count change, each channel filtered from its own state, gain applied, and with several channels stored into the input's type; the returned type is the input's with several channels and float64 with one |
| FilterBank.CastSample | filters.py:245-248 | int16 and int8 results lie in [-32768, 32767] and [-128, 127] and are whole; out-of-range sums saturate at the nearer bound, never wrap; in-range sums move by less than 1; float types are left as they are |
| FilterBank.CastAll | filters.py:245-248 | the conversion applies sample by sample and keeps the length |
| FilterBank.Outputs | filters.py:241-242 | every band's output on the input converted to float32 is as long as the input |
| FilterBank.Total | filters.py:238-242 | the sum of the band outputs, added in list order onto zeros, is as long as the input |
| FilterBank.TotalSnoc | filters.py:241-242 | adding band i to the sum of the bands before it gives the sum of the first i + 1 bands |
| FilterBank.TotalAt | filters.py:238-242 | each sample of the sum is the sum of the bands' samples |
| FilterBank.NoBandsIsSilence | filters.py:238-250 | with no bands the equalizer returns all zeros of the input's length, not its input |
| FilterBank.OneBandIsItsOutput | filters.py:238-242 | with one band the sum is that band's output |
| FilterBank.ParseBandKeyOfJoin | filters.py:281 | a key `lo + "-" + hi` with no "-" in either half parses to `(float(lo), float(hi))` when both halves parse, and fails otherwise |
| FilterBank.ParseBandKeyShape | filters.py:281 | a key that parses is exactly two "-"-free halves around one "-" |
| FilterBank.DefaultBandEdges | filters.py:264-281 | the six default keys parse to the edges 20-60, 60-200, 200-600, 600-2000, 2000-6000 and 6000-20000 Hz |
| FilterBank.SettingsOrDefault | filters.py:274 | the given settings when there are any, else the six flat default bands |
| FilterBank.EntryCheck | filters.py:280-282 | one settings entry raises ValueError when its key does not parse; a key that parses with a zero rate raises ZeroDivisionError; otherwise the entry goes through exactly when `butter` accepts its normalised edges |
| FilterBank.DefaultsNeedRateAbove40k | filters.py:264-284 | every default band is accepted exactly when the rate is above 40000 Hz, so `create_equalizer` with no settings raises at 8000, 22050 or 40000 Hz |
| FilterBank.Equalizer.constructor | filters.py:204-212 | a new equalizer has the given sample rate and no bands |
| FilterBank.Equalizer.AddBand | filters.py:214-224 | a zero rate raises ZeroDivisionError and edges `butter` refuses raise ValueError, and nothing is appended; otherwise one band is appended after the unchanged existing ones: a fresh band-pass filter of order 4 over the given edges and gain, with no state yet |
| FilterBank.Equalizer.Process | filters.py:226-250 | the output is the sum, in band order, of each band's `ProcessSpec` output from its old state, clipped and cast to the sample type; each band's state advances as its own `process` call would |
| FilterBank.Equalizer.SumBands | filters.py:238-242 | the loop runs every band in list order from its old state: the sum is the `Total` of their `ProcessSpec` outputs onto zeros, and each band is left in the state its own `process` call gives |
| FilterBank.CreateEqualizer | filters.py:252-284 | succeeds exactly when every entry of the settings (the six defaults when none are given) passes `EntryCheck`; otherwise the error is that of the first failing entry; a first key that parses with a zero rate raises ZeroDivisionError; on success there is one fresh, unused band per entry, in order, built from that entry's edges and gain |
| FilterBank.AddBands | filters.py:277-284 | the same outcome for a given settings list: the entries are tried in order and the first that fails raises before any later entry is looked at |
| FilterBank.FilterMode | filters.py:329-384 | the mode is "lowpass" or "highpass" exactly when `argv[2]` lower-cases to it and a cutoff argument follows, "equalizer" exactly when `argv[2]` lower-cases to it, and "none" otherwise, so the callback never meets a missing filter |
| FilterBank.Callback | filters.py:286-307 | an empty read ends the stream (`paComplete`) and returns the data; otherwise "lowpass", "highpass" and "equalizer" run that filter's process and only its state moves, and any other mode returns the data unchanged with `paContinue`; the returned type is that of the filter's output (float64 for a mono low- or high-pass, float32 from the equalizer on float input) |
| EqArgument.Classify | filters.py:368-376 | a token sets bass when its lower-cased text contains "bass", else mid when it contains "mid", else high when it contains "high", else nothing |
| EqArgument.FoldStep | filters.py:367-376 | one more token of the loop is one more `Step` on the settings so far |
| EqArgument.Update | filters.py:367-376 | `eq_settings[key] = gain`: the key then maps to the new gain and every other key keeps its value |
| EqArgument.UpdateKeys | filters.py:367-376 | assigning an existing key keeps the keys and their order; a new key is appended |
| EqArgument.ParseEqArgument | filters.py:351-376 | the loop over `eq_arg.split()` from the six flat bands computes the token-by-token fold `Fold` under the given stripping; AsWritten is the program as it stands, IgnoringCase is the corrected parser; the first token whose number does not parse ends it with ValueError |
| EqArgument.ErrorSticks | filters.py:367-376 | once a token has raised, no later token brings the parse back |
| EqArgument.LastTokenWins | filters.py:367-376 | each of the 60-200, 600-2000 and 6000-20000 gains is the one the last token for that band gives, or its start value when no token names it |
| EqArgument.OtherKeysUntouched | filters.py:351-376 | keys other than the three a keyword can set keep their start values |
| EqArgument.KeysKept | filters.py:367-376 | when the three band keys are present, parsing changes values only, never keys or order |
| EqArgument.ParsedKeysAreDefaultKeys | filters.py:351-378 | a successful parse yields the six default keys in order, so `create_equalizer` builds six bands |
| EqArgument.StepSucceedsIff | filters.py:368-376 | one token fails exactly when it names a band and its number does not parse |
| EqArgument.FoldSucceedsIff | filters.py:366-376 | the parse succeeds exactly when every token that names a band carries a number `float()` accepts |
| EqArgument.AgreeOnLowerCase | filters.py:367-376 | on lower-case tokens the as-written and the case-blind stripping give the same result |
| EqArgument.CapitalisedKeyword | filters.py:368-370 | "Bass+6" is classified as bass, yet the as-written replace leaves "Bass+6" for `float()`, so the parse raises; the case-blind parse sets 60-200 to +6 |
| EqArgument.StepLowerCase | filters.py:368-376 | one token under case-blind stripping is read as the as-written parser reads the lower-cased token |
| EqArgument.IgnoringCaseIsLowerCase | filters.py:367-376 | the case-blind parser reads any token sequence as the as-written parser reads it lower-cased, so the keyword's capitalisation no longer matters |
| AudioConfig.AudioSettings.constructor | audio_settings.py:7-10 | a new instance holds the default table object itself, not a copy |
| AudioConfig.AudioSettings.GetEqBands | audio_settings.py:13-16 | the getter returns the stored table object |
| AudioConfig.AudioSettings.SetEqBands | audio_settings.py:18-25 | a dict is stored as the table object itself; anything else raises ValueError and keeps the old table |
| AudioConfig.AudioSettings.AddEqBand | audio_settings.py:27-30 | `bands[id] == (freq, gain, q)` with q defaulting to 1.0; every other entry is unchanged |
| AudioConfig.AudioSettings.RemoveEqBand | audio_settings.py:32-36 | exactly the given id is removed; an absent id changes nothing |
| AudioConfig.AudioSettings.ClearEqBands | audio_settings.py:38-41 | the shared table becomes empty |
| AudioConfig.SharedDefaultTable | audio_settings.py:7-30 | a band added through one instance built on the default table is seen through another such instance and in the default table itself |
| AudioConfig.ReplacedTableIsDetached | audio_settings.py:18-30 | after the setter replaces the table, edits through another holder of the old table do not reach it, and the old table keeps receiving them |
| RecordingConfig.FullPath | recording_settings.py:86-89 | the full path is the directory, then "/", then the file name |
| RecordingConfig.FullPathLastComponent | recording_settings.py:86-89 | the last "/"-separated component of the full path is the file name |
| RecordingConfig.DefaultsAgainstSetters | recording_settings.py:12-17 | the default bit depth, rate and both names pass their setters' checks; the default session number 0 does not |
| RecordingConfig.RecordingSettings.constructor | recording_settings.py:9-22 | every field starts at its default |
| RecordingConfig.RecordingSettings.SetBitDepth | recording_settings.py:33-38 | accepted exactly for 16 or 24; an accepted value changes only the bit depth, a rejected one changes nothing |
| RecordingConfig.RecordingSettings.SetSamplingFreq | recording_settings.py:50-55 | accepted exactly for `5000 <= fs <= 192000`; only that field changes, and only on success |
| RecordingConfig.RecordingSettings.SetDirectory | recording_settings.py:64-70 | accepted exactly when the path is a directory; only that field changes, and only on success |
| RecordingConfig.RecordingSettings.SetFileName | recording_settings.py:78-84 | accepted exactly for lengths 1 to 19; only that field changes, and only on success |
| RecordingConfig.RecordingSettings.SetSessionNumber | recording_settings.py:97-102 | accepted exactly for 1 to 998 (999 is rejected); only that field changes, and only on success |
| RecordingConfig.RecordingSettings.SetSessionName | recording_settings.py:109-114 | accepted exactly for lengths 1 to 19; only that field changes, and only on success |
| RecordingConfig.RecordingSettings.FullPathName | recording_settings.py:86-89 | the property is the current directory, then "/", then the current file name |
| Text.SplitOn | filters.py:281 | `str.split("-")` never returns an empty list and no field contains the separator |
| Text.JoinSplit | filters.py:281 | joining the fields of a split gives the string back |
| Text.SplitJoin | filters.py:281 | splitting a join of separator-free fields gives the fields back |
| Text.Words | filters.py:366 | `str.split()` yields non-empty tokens with no blanks in them |
| Text.WordsCoverNonBlanks | filters.py:366 | the tokens of `str.split()`, put back together, are exactly the non-blank characters of the string |
| Text.WordsAreRuns | filters.py:366 | each token of `str.split()` occurs in the string at its start position with a blank or an end of the string on either side |
| Text.Lower | filters.py:368-374 | `str.lower()` keeps the length and maps each ASCII capital to its small letter, leaving every other character |
| Text.ContainsIff | filters.py:368-374 | the `in` test finds the pattern exactly when it occurs at some position |
| Text.RemoveAll | filters.py:369-375 | `replace(pat, "")` never lengthens the string, leaves it unchanged when the pattern does not occur, and removes a leading occurrence |
| Text.RemoveAllAbsent | filters.py:369 | `replace` leaves a string unchanged when the pattern's first letter does not occur in it |
| Text.RemoveIgnoringCaseNoUpper | filters.py:369-375 | on a string without capitals, removing the keyword in any case removes what `replace` removes |
| Text.LowerRemoveIgnoringCase | filters.py:368-375 | removing the keyword in any case and then lower-casing equals lower-casing and then `replace` |

## Left out

- The PyAudio and file lifecycle is not modelled: `start_stream`, `streaming`,
  `stop_stream`, `create_audio_stream`, `open_audio_file`, `get_audio_properties`, the
  pass-through streamer in `sound_processing.py`, and `main.py`. These are device and
  file I/O with polling and sleeps.
- `filters.py`'s `__main__` block is not modelled, apart from the choice of filter
  mode and the equalizer-string parser. It reads `sys.argv`, opens files and plays
  sound.
- Locks (`threading.Lock`, `shared_locks.py`) are not modelled. The settings objects are
  modelled sequentially.
- scipy's `butter`, `lfilter`, `lfilter_zi` and `filtfilt`, and the gain law
  `10 ** (g / 20)`, are abstract parameters. Only their argument checks are modelled:
  `butter`'s `0 < Wn < 1` (and, for a band, `Wn[0] < Wn[1]`, which current scipy
  checks) and `filtfilt`'s length limit of 27 samples for an order-4 band-pass.
  Other scipy errors, such as a non-finite input, are not modelled.
- Floating point, float32 and float64 rounding are not modelled: samples are exact
  reals. The types are tracked as labels (`Dtype`), which is how the int16 truncation
  and the mono float64 output are told apart.
- Filters.Wrap models a float beyond the int16 or int8 range stored into such an array
  as a two's-complement wrap of its truncation. NumPy leaves that conversion to the
  platform's C cast, which is undefined beyond the 32-bit range.
- `np.frombuffer` and `tobytes` are not modelled. Samples are sequences of numbers,
  never bytes.
- Text.Lower lowers ASCII capitals only. Python's `str.lower()` lowers every cased
  character, so a keyword written with non-ASCII capitals is not modelled.
- `test.py` and `testev2.py` are not part of this model.
- `RecordingSettings` does not define `add_to_audio_queue`, `frame_size`, `channels` or
  `in_data_bytes`, which `AudioStreamer` uses. The streamer therefore receives the
  queue, the frame size, the channel count and the sample buffer as constructor
  parameters. The queue is only an append-only list.
- Streaming.AudioStreamer.Callback reads the sample buffer once, as a constant. The
  source converts `rec_set.in_data_bytes` again on every call, so a buffer changed
  between calls is not modelled.
- Streaming.AudioStreamer.Callback abstracts the equalizer as `equalize`, any
  length-preserving function. `audio_stream.py:135` calls `apply_equalizer` with three
  arguments, while `sound_processing.py:20` declares two, so the call as written would
  raise.
- The constructor of `AudioStreamer` does not model the PyAudio handle or the stream
  field.
- SoundProcessing.ApplyEqualizer receives the band table's entries as a list in dict
  iteration order. The source reads them from the module's `AudioSettings` instance.
- Filters.ChannelFilter.Process requires at least one channel. With 0 channels the
  source would index an empty state list and raise.
- FilterBank.CreateEqualizer takes the settings as an ordered list of (key, gain)
  pairs. A Python dict cannot repeat a key; the list can, and then it builds one band
  per entry.
- FilterBank.Callback requires the filter objects to exist and to be distinct. In the
  source an unbuilt filter is never reached: without a cutoff argument the mode falls
  back to "none" (filters.py:380-382), as FilterBank.FilterMode states.
- FilterBank.FilterMode lower-cases ASCII letters only, and does not model the
  ValueError `float(sys.argv[3])` raises for a cutoff that is not a number.
- `processed_data.tobytes()` is not modelled: a mono low- or high-pass hands float64
  bytes to a stream opened for the file's integer format. Callback's `outType` says
  which type the bytes have.
- FilterBank.Callback receives the read frames as data. `wf.readframes` is file I/O.

## Findings

| source | as written | input that shows it | evidently intended | confidence | as-written member | corrected member |
|---|---|---|---|---|---|---|
| filters.py:368-370 | the bass test `"bass" in part.lower()` ignores case, but `part.replace("bass", "")` removes only the lower-case keyword, so `float()` receives the keyword and raises ValueError | `"Bass+6"` | remove the keyword in any case, so that `"Bass+6"` sets the 60-200 band to +6 (the mid and high branches at 371-376 behave the same way) | high that the as-written code raises for this input; medium that a case-blind keyword was intended; not executed | EqArgument.CapitalisedKeyword | EqArgument.IgnoringCaseIsLowerCase |
