/**
 * audio_settings.py: the equalizer band table {band_id: (freq, gain, q)}.
 * The table is a Python dict, a mutable object that several holders may share,
 * so it is a class of its own here and AudioSettings holds a reference to it.
 */
module AudioConfig {
  import opened Constants
  import opened Wrappers

  /** A dict {band_id: (freq, gain, q)}. */
  class BandTable {
    var entries: map<int, Band>

    constructor (entries: map<int, Band>)
      ensures this.entries == entries
    {
      this.entries := entries;
    }
  }

  /** What the eq_bands setter may be handed: a dict, or any other Python value. */
  datatype BandsArg = Dict(table: BandTable) | NotADict

  datatype AudioSettingsError = ValueError

  class AudioSettings {
    var eqBands: BandTable

    /** Every instance starts with the module's DEFAULT_EQ_BANDS object itself, not a copy. */
    constructor (defaultEqBands: BandTable)
      ensures eqBands == defaultEqBands
    {
      eqBands := defaultEqBands;
    }

    /** The getter hands out the stored table itself. */
    method GetEqBands() returns (table: BandTable)
      ensures table == eqBands
    {
      table := eqBands;
    }

    /** The setter accepts only a dict and then stores that very object. */
    method SetEqBands(arg: BandsArg) returns (r: Outcome<AudioSettingsError>)
      modifies this
      ensures r.Pass? <==> arg.Dict?
      ensures eqBands == if arg.Dict? then arg.table else old(eqBands)
    {
      if arg.Dict? {
        eqBands := arg.table;
        r := Pass;
      } else {
        r := Fail(ValueError);
      }
    }

    /** Insert or overwrite one band; every other entry stays as it was. */
    method AddEqBand(bandId: int, freq: real, gain: real, q: real := 1.0)
      modifies eqBands
      ensures eqBands.entries == old(eqBands.entries)[bandId := Band(freq, gain, q)]
      ensures bandId in eqBands.entries && eqBands.entries[bandId] == Band(freq, gain, q)
      ensures forall id :: id != bandId ==> (id in eqBands.entries <==> id in old(eqBands.entries))
      ensures forall id :: id != bandId && id in old(eqBands.entries) ==> eqBands.entries[id] == old(eqBands.entries)[id]
    {
      eqBands.entries := eqBands.entries[bandId := Band(freq, gain, q)];
    }

    /** Remove one band if present; an absent id is not an error and changes nothing. */
    method RemoveEqBand(bandId: int)
      modifies eqBands
      ensures eqBands.entries == old(eqBands.entries) - {bandId}
      ensures bandId !in old(eqBands.entries) ==> eqBands.entries == old(eqBands.entries)
      ensures eqBands.entries.Keys == old(eqBands.entries).Keys - {bandId}
    {
      if bandId in eqBands.entries {
        eqBands.entries := eqBands.entries - {bandId};
      }
    }

    /** dict.clear(): the shared table object itself becomes empty. */
    method ClearEqBands()
      modifies eqBands
      ensures eqBands.entries == map[]
    {
      eqBands.entries := map[];
    }
  }

  /**
   * Two settings objects built from the module's default table (as audio_settings.py
   * and sound_processing.py each build one): a band added through the first is seen
   * through the second and in the default table itself.
   */
  method SharedDefaultTable(bandId: int, freq: real, gain: real, q: real)
    returns (seenBySecond: map<int, Band>, seenInDefault: map<int, Band>)
    ensures seenBySecond == DefaultEqBands[bandId := Band(freq, gain, q)]
    ensures seenInDefault == seenBySecond
  {
    var defaults := new BandTable(DefaultEqBands);
    var first := new AudioSettings(defaults);
    var second := new AudioSettings(defaults);
    first.AddEqBand(bandId, freq, gain, q);
    var table := second.GetEqBands();
    seenBySecond := table.entries;
    seenInDefault := defaults.entries;
  }

  /** A table replaced through the setter is no longer affected by edits of the old one. */
  method ReplacedTableIsDetached(bandId: int, freq: real, gain: real)
    returns (current: map<int, Band>, previous: map<int, Band>)
    ensures current == map[]
    ensures previous == DefaultEqBands[bandId := Band(freq, gain, 1.0)]
  {
    var defaults := new BandTable(DefaultEqBands);
    var settings := new AudioSettings(defaults);
    var replacement := new BandTable(map[]);
    var other := new AudioSettings(defaults);
    var r := settings.SetEqBands(Dict(replacement));
    other.AddEqBand(bandId, freq, gain);
    var table := settings.GetEqBands();
    current := table.entries;
    previous := defaults.entries;
  }
}
