/**
 * recording_settings.py: session parameters behind validating setters.
 * Each setter checks its argument first and writes only when the check passes.
 */
module RecordingConfig {
  import opened Constants
  import opened Wrappers
  import Text

  datatype ConfigError = ValueError

  /** A snapshot of every field, to say what a setter changed and what it left alone. */
  datatype Fields = Fields(
    bitDepth: int,
    samplingFreq: int,
    directory: string,
    fileName: string,
    sessionNumber: int,
    sessionName: string,
    recordingActive: bool,
    recordingStartTime: Option<real>,
    recordingDuration: real)

  predicate ValidBitDepth(value: int) {
    value == 16 || value == 24
  }

  predicate ValidSamplingFreq(fs: int) {
    MinFreq <= fs <= MaxFreq
  }

  /** File and session names: 0 < len(name) < 20. */
  predicate ValidName(name: string) {
    0 < |name| < 20
  }

  predicate ValidSessionNumber(n: int) {
    0 < n < 999
  }

  /** f"{directory}/{file_name}" */
  function FullPath(directory: string, fileName: string): (path: string)
    ensures |path| == |directory| + 1 + |fileName|
    ensures path[..|directory|] == directory && path[|directory|] == '/'
    ensures path[|directory| + 1..] == fileName
  {
    directory + "/" + fileName
  }

  /** The last "/"-separated component of the full path is the file name, when the name has no "/". */
  lemma FullPathLastComponent(directory: string, fileName: string)
    requires '/' !in fileName
    ensures var parts := Text.SplitOn(FullPath(directory, fileName), '/');
            parts[|parts| - 1] == fileName
  {
    Text.SplitConcat(directory, fileName, '/');
    Text.SplitJoin([fileName], '/');
    assert directory + "/" + fileName == directory + ['/'] + fileName;
  }

  const DefaultDirectory: string := "path\\to\\save\\audio"
  const DefaultFileName: string := "default_audio.flac"
  const DefaultSessionNumber: int := 0
  const DefaultSessionName: string := "Default_Session"

  /** The defaults pass their setters' checks, except the session number 0. */
  lemma DefaultsAgainstSetters()
    ensures ValidBitDepth(DefaultBitDepth) && ValidSamplingFreq(DefaultSamplingFreq)
    ensures ValidName(DefaultFileName) && ValidName(DefaultSessionName)
    ensures !ValidSessionNumber(DefaultSessionNumber)
  {
  }

  class RecordingSettings {
    var bitDepth: int
    var samplingFreq: int
    var directory: string
    var fileName: string
    var sessionNumber: int
    var sessionName: string
    var recordingActive: bool
    var recordingStartTime: Option<real>
    var recordingDuration: real

    function State(): Fields
      reads this
    {
      Fields(bitDepth, samplingFreq, directory, fileName, sessionNumber, sessionName,
             recordingActive, recordingStartTime, recordingDuration)
    }

    constructor ()
      ensures State() == Fields(DefaultBitDepth, DefaultSamplingFreq, DefaultDirectory, DefaultFileName,
                                DefaultSessionNumber, DefaultSessionName, false, None, 0.0)
    {
      bitDepth := DefaultBitDepth;
      samplingFreq := DefaultSamplingFreq;
      directory := DefaultDirectory;
      fileName := DefaultFileName;
      sessionNumber := DefaultSessionNumber;
      sessionName := DefaultSessionName;
      recordingActive := false;
      recordingStartTime := None;
      recordingDuration := 0.0;
    }

    method SetBitDepth(value: int) returns (r: Outcome<ConfigError>)
      modifies this
      ensures r.Pass? <==> ValidBitDepth(value)
      ensures State() == if r.Pass? then old(State()).(bitDepth := value) else old(State())
    {
      if !ValidBitDepth(value) {
        return Fail(ValueError);
      }
      bitDepth := value;
      r := Pass;
    }

    method SetSamplingFreq(fs: int) returns (r: Outcome<ConfigError>)
      modifies this
      ensures r.Pass? <==> ValidSamplingFreq(fs)
      ensures State() == if r.Pass? then old(State()).(samplingFreq := fs) else old(State())
    {
      if !ValidSamplingFreq(fs) {
        return Fail(ValueError);
      }
      samplingFreq := fs;
      r := Pass;
    }

    /** The filesystem test os.path.isdir is the parameter isDir. */
    method SetDirectory(path: string, isDir: string -> bool) returns (r: Outcome<ConfigError>)
      modifies this
      ensures r.Pass? <==> isDir(path)
      ensures State() == if r.Pass? then old(State()).(directory := path) else old(State())
    {
      if !isDir(path) {
        return Fail(ValueError);
      }
      directory := path;
      r := Pass;
    }

    method SetFileName(name: string) returns (r: Outcome<ConfigError>)
      modifies this
      ensures r.Pass? <==> ValidName(name)
      ensures State() == if r.Pass? then old(State()).(fileName := name) else old(State())
    {
      if !ValidName(name) {
        return Fail(ValueError);
      }
      fileName := name;
      r := Pass;
    }

    method SetSessionNumber(n: int) returns (r: Outcome<ConfigError>)
      modifies this
      ensures r.Pass? <==> 1 <= n <= 998
      ensures State() == if r.Pass? then old(State()).(sessionNumber := n) else old(State())
    {
      if !ValidSessionNumber(n) {
        return Fail(ValueError);
      }
      sessionNumber := n;
      r := Pass;
    }

    method SetSessionName(name: string) returns (r: Outcome<ConfigError>)
      modifies this
      ensures r.Pass? <==> ValidName(name)
      ensures State() == if r.Pass? then old(State()).(sessionName := name) else old(State())
    {
      if !ValidName(name) {
        return Fail(ValueError);
      }
      sessionName := name;
      r := Pass;
    }

    /** The property full_path_name: the directory and the file name joined by "/". */
    function FullPathName(): (path: string)
      reads this
      ensures |path| == |directory| + 1 + |fileName|
      ensures path[..|directory|] == directory && path[|directory|] == '/'
      ensures path[|directory| + 1..] == fileName
    {
      FullPath(directory, fileName)
    }
  }
}
