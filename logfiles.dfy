/**
 * The log: a file system reduced to what the logger observes (whether a path
 * exists, its size, and the lines the monitor appended), size-based rotation
 * to a ".bak" name built in a 256-byte buffer, and the append of one coloured
 * line above the 65-degree logging floor.
 */
module LogFiles {
  import opened Bands

  /** A path as the bytes of a C string, one character per byte. */
  type Path = string

  /** Rotation happens once a log reaches this many bytes (1 MiB). */
  const LogSizeLimit: nat := 1048576

  /** Size of the buffer the backup name is formatted into, terminating NUL included. */
  const BackupBufferSize: nat := 256

  const BackupSuffix: string := ".bak"

  /** Nothing is logged at or below this temperature. */
  const LogFloor: real := 65.0

  /** The broken-down local time printed at the head of a line. */
  datatype Timestamp = Timestamp(year: int, month: int, day: int, hour: int, minute: int, second: int)

  /** One appended line: its colour, its timestamp and the temperature it reports. */
  datatype LogLine = LogLine(band: Band, stamp: Timestamp, temperature: real)

  /**
   * A file: its size in bytes and the lines the monitor appended to it. A file that
   * existed before may hold other content, so the size is kept on its own.
   */
  datatype File = File(size: nat, lines: seq<LogLine>)

  type Files = map<Path, File>

  /**
   * What the environment decides during one write: whether the file opens for
   * appending, the local time, and the byte length of the formatted line.
   */
  datatype WriteEnv = WriteEnv(openOk: bool, stamp: Timestamp, lineBytes: nat)

  /** The lines at a path, none if it does not exist. */
  function LinesAt(files: Files, path: Path): seq<LogLine>
  {
    if path in files then files[path].lines else []
  }

  /** The size at a path, 0 if it does not exist (opening for append creates it empty). */
  function SizeAt(files: Files, path: Path): nat
  {
    if path in files then files[path].size else 0
  }

  /**
   * The backup name: path + ".bak" as formatted into the 256-byte buffer, so cut to
   * its first 255 characters when longer.
   */
  function BackupPath(path: Path): (b: Path)
    ensures |b| < BackupBufferSize
    ensures b <= path + BackupSuffix
    ensures |b| == |path| + |BackupSuffix| || |b| == BackupBufferSize - 1
  {
    var full := path + BackupSuffix;
    if |full| < BackupBufferSize then full else full[..BackupBufferSize - 1]
  }

  /** The backup name is the log name itself exactly when the log name is 255 bytes long. */
  lemma BackupIsLogPath(path: Path)
    ensures BackupPath(path) == path <==> |path| == BackupBufferSize - 1
  {
    if |path| == BackupBufferSize - 1 {
      assert (path + BackupSuffix)[..|path|] == path;
    }
  }

  /** A name of at most 251 bytes gets the whole suffix. */
  lemma ShortPathBackup(path: Path)
    requires |path| + |BackupSuffix| < BackupBufferSize
    ensures BackupPath(path) == path + ".bak"
  {
  }

  /** The size test: the file can be examined and holds at least 1 MiB. */
  predicate NeedsRotation(files: Files, path: Path)
  {
    path in files && files[path].size >= LogSizeLimit
  }

  /**
   * Renaming a file: the target (any earlier backup) is replaced by the source, and
   * renaming a file onto its own name changes nothing.
   */
  function Rename(files: Files, from: Path, to: Path): (r: Files)
    requires from in files
    ensures to in r && r[to] == files[from]
    ensures from != to ==> from !in r
    ensures forall p :: p != from && p != to ==> (p in r <==> p in files)
    ensures forall p :: p != from && p != to && p in r ==> r[p] == files[p]
  {
    if from == to then files else (files - {from})[to := files[from]]
  }

  /** The file system after the rotation test of one logging call. */
  function Rotated(files: Files, path: Path): (r: Files)
    ensures !NeedsRotation(files, path) ==> r == files
    ensures NeedsRotation(files, path) ==>
      BackupPath(path) in r && r[BackupPath(path)] == files[path]
    ensures NeedsRotation(files, path) && BackupPath(path) != path ==> path !in r
    ensures forall p :: p != path && p != BackupPath(path) ==> (p in r <==> p in files)
    ensures forall p :: p != path && p != BackupPath(path) && p in r ==> r[p] == files[p]
  {
    if NeedsRotation(files, path) then Rename(files, path, BackupPath(path)) else files
  }

  /** Rotation changes the file system exactly when the file is due and its backup name differs from it. */
  lemma {:induction false} RotationChangesIff(files: Files, path: Path)
    ensures Rotated(files, path) != files <==> NeedsRotation(files, path) && BackupPath(path) != path
  {
    if NeedsRotation(files, path) && BackupPath(path) != path {
      assert path !in Rotated(files, path);
    }
  }

  /** Appending a line to a path, creating the file when it does not exist. */
  function Appended(files: Files, path: Path, line: LogLine, bytes: nat): (r: Files)
    ensures path in r
    ensures r[path].lines == LinesAt(files, path) + [line]
    ensures r[path].size == SizeAt(files, path) + bytes
    ensures forall p :: p != path ==> (p in r <==> p in files)
    ensures forall p :: p != path && p in r ==> r[p] == files[p]
  {
    files[path := File(SizeAt(files, path) + bytes, LinesAt(files, path) + [line])]
  }

  /** Whether a logging call reports that the file could not be opened. */
  predicate OpenFails(t: real, env: WriteEnv)
  {
    t > LogFloor && !env.openOk
  }

  /** The file system after one logging call: floor test, rotation, open, append. */
  function Logged(files: Files, t: real, path: Path, env: WriteEnv): Files
  {
    if t <= LogFloor then files
    else
      var rotated := Rotated(files, path);
      if !env.openOk then rotated
      else Appended(rotated, path, LogLine(BandOf(t), env.stamp, t), env.lineBytes)
  }

  /** At or below the floor the file system is left exactly as it was: no rotation, no line. */
  lemma LoggedBelowFloor(files: Files, t: real, path: Path, env: WriteEnv)
    requires t <= LogFloor
    ensures Logged(files, t, path, env) == files
  {
  }

  /**
   * Above the floor, when the file opens, exactly one line is added after whatever
   * rotation left at the path; it reports the temperature, in magenta or red.
   */
  lemma LoggedAddsOneLine(files: Files, t: real, path: Path, env: WriteEnv)
    requires t > LogFloor && env.openOk
    ensures var r := Logged(files, t, path, env);
      path in r &&
      r[path].lines == LinesAt(Rotated(files, path), path) + [LogLine(BandOf(t), env.stamp, t)] &&
      (BandOf(t) == Magenta || BandOf(t) == Red)
  {
    HotBand(t);
  }

  /** When the file does not open, rotation still happened and no line is added. */
  lemma LoggedOpenFailure(files: Files, t: real, path: Path, env: WriteEnv)
    requires OpenFails(t, env)
    ensures Logged(files, t, path, env) == Rotated(files, path)
  {
  }

  /** Logging 70 degrees to a path with no file creates it holding one magenta line. */
  lemma FreshFileScenario(files: Files, path: Path, env: WriteEnv)
    requires path !in files && env.openOk
    ensures Logged(files, 70.0, path, env) ==
      files[path := File(env.lineBytes, [LogLine(Magenta, env.stamp, 70.0)])]
  {
    assert Rotated(files, path) == files;
    assert LinesAt(files, path) + [LogLine(Magenta, env.stamp, 70.0)] == [LogLine(Magenta, env.stamp, 70.0)];
  }

  /**
   * A full log with a backup name of its own: the old file becomes the backup and
   * the log starts again with the new line alone.
   */
  lemma LoggedAfterRotation(files: Files, t: real, path: Path, env: WriteEnv)
    requires t > LogFloor && env.openOk
    requires NeedsRotation(files, path) && BackupPath(path) != path
    ensures var r := Logged(files, t, path, env);
      BackupPath(path) in r && r[BackupPath(path)] == files[path] &&
      path in r && r[path] == File(env.lineBytes, [LogLine(BandOf(t), env.stamp, t)])
  {
  }

  /**
   * A full log whose name is 255 bytes long is never rotated: the backup name is
   * the log name, the rename moves nothing, and the line is appended to the full file.
   */
  lemma FullLogAt255Bytes(files: Files, t: real, path: Path, env: WriteEnv)
    requires t > LogFloor && env.openOk
    requires NeedsRotation(files, path) && |path| == BackupBufferSize - 1
    ensures var r := Logged(files, t, path, env);
      path in r && r[path].size == files[path].size + env.lineBytes &&
      r[path].lines == files[path].lines + [LogLine(BandOf(t), env.stamp, t)]
  {
    BackupIsLogPath(path);
  }

  /** A logging call touches at most the log and its backup name. */
  lemma LoggedTouchesOnlyLogAndBackup(files: Files, t: real, path: Path, env: WriteEnv, p: Path)
    requires p != path && p != BackupPath(path)
    ensures var r := Logged(files, t, path, env);
      (p in r <==> p in files) && (p in r ==> r[p] == files[p])
  {
  }

  /** A line as the logger writes it: above the floor, coloured by its own temperature. */
  predicate WellFormedLine(line: LogLine)
  {
    line.temperature > LogFloor && line.band == BandOf(line.temperature)
  }

  /** Every line the monitor appended to any file is well formed. */
  predicate WellFormedLog(files: Files)
  {
    forall p, i :: p in files && 0 <= i < |files[p].lines| ==> WellFormedLine(files[p].lines[i])
  }

  /** A well-formed line is never green or yellow. */
  lemma WellFormedLineIsHot(line: LogLine)
    requires WellFormedLine(line)
    ensures line.band == Magenta || line.band == Red
  {
    HotBand(line.temperature);
  }

  /** Rotation and logging keep every monitor line in every file well formed. */
  lemma LoggedKeepsWellFormed(files: Files, t: real, path: Path, env: WriteEnv)
    requires WellFormedLog(files)
    ensures WellFormedLog(Logged(files, t, path, env))
  {
    var rotated := Rotated(files, path);
    assert WellFormedLog(rotated) by {
      forall p, i | p in rotated && 0 <= i < |rotated[p].lines|
        ensures WellFormedLine(rotated[p].lines[i])
      {
        if NeedsRotation(files, path) && p == BackupPath(path) {
          assert rotated[p] == files[path];
        } else {
          assert p in files && rotated[p] == files[p];
        }
      }
    }
    if t > LogFloor && env.openOk {
      var r := Logged(files, t, path, env);
      forall p, i | p in r && 0 <= i < |r[p].lines| ensures WellFormedLine(r[p].lines[i]) {
        if p == path {
          if i < |LinesAt(rotated, path)| {
            assert r[p].lines[i] == LinesAt(rotated, path)[i];
          }
        } else {
          assert r[p] == rotated[p];
        }
      }
    }
  }

  /** The external file system the logger works on. */
  class FileSystem {
    var files: Files

    constructor (initial: Files)
      ensures files == initial
    {
      files := initial;
    }
  }

  /** Rename the log to its backup name when it exists and has reached 1 MiB. */
  method RotateLog(fs: FileSystem, path: Path)
    modifies fs
    ensures fs.files == Rotated(old(fs.files), path)
  {
    if path in fs.files && fs.files[path].size >= LogSizeLimit {
      var backup := BackupPath(path);
      fs.files := Rename(fs.files, path, backup);
    }
  }

  /**
   * Log one temperature: nothing at or below the floor; otherwise rotate, open for
   * appending and write one line coloured by its band. Returns whether the open
   * failed, which the source reports on the error stream.
   */
  method LogTemperature(fs: FileSystem, t: real, path: Path, env: WriteEnv) returns (openFailed: bool)
    modifies fs
    ensures fs.files == Logged(old(fs.files), t, path, env)
    ensures openFailed == OpenFails(t, env)
  {
    openFailed := false;
    if t <= LogFloor {
      return;
    }
    RotateLog(fs, path);
    if !env.openOk {
      openFailed := true;
      return;
    }
    var band := BandOf(t);
    fs.files := Appended(fs.files, path, LogLine(band, env.stamp, t), env.lineBytes);
  }
}
