/**
 * The monitoring loop: each cycle queries the sensor, skips the cycle after a
 * failed reading, otherwise smooths the reading, prints it coloured by its band,
 * logs it and warns when it exceeds the alert threshold.
 */
module Monitor {
  import opened Wrappers
  import opened Bands
  import opened Smoothing
  import opened LogFiles

  /**
   * What a cycle makes observable, in order, on the console and the error stream.
   * The sensor query's own error messages are not part of this trace.
   */
  datatype Output =
    | Current(band: Band, temperature: real)   // the coloured "Current temperature" line
    | LogOpenError                              // the log file could not be opened
    | AboveThreshold(temperature: real)         // the red warning line
    | RetryWait                                 // the one-second pause after a failed reading
    | PollWait(seconds: int)                    // the pause of one poll interval

  /** The command-line settings the loop runs with. */
  datatype Config = Config(threshold: real, logPath: Path, pollInterval: int)

  /** What the outside world supplies to one cycle: the sensor's answer and the log write's environment. */
  datatype CycleInput = CycleInput(sensor: Option<real>, env: WriteEnv)

  /** The value the sensor query hands to the loop: the reading, or -1 when the query failed. */
  function SensorValue(sensor: Option<real>): real
  {
    match sensor
    case None => -1.0
    case Some(t) => t
  }

  /** The loop skips a cycle whose value is negative. */
  predicate Skips(sensor: Option<real>)
  {
    SensorValue(sensor) < 0.0
  }

  /** The alert test: strictly above the threshold. */
  predicate WarnsAbove(t: real, threshold: real)
  {
    t > threshold
  }

  /** Warning exactly above the threshold: 85 against 80 warns, 80 against 80 does not. */
  lemma AlertScenarios()
    ensures WarnsAbove(85.0, 80.0)
    ensures !WarnsAbove(80.0, 80.0)
  {
  }

  /** The lines a successful cycle prints after smoothing to m. */
  function CycleOutput(m: real, cfg: Config, env: WriteEnv): seq<Output>
  {
    [Current(BandOf(m), m)]
    + (if OpenFails(m, env) then [LogOpenError] else [])
    + (if WarnsAbove(m, cfg.threshold) then [AboveThreshold(m)] else [])
    + [PollWait(cfg.pollInterval)]
  }

  /** The monitor as values: readings pushed so far, the file system, everything printed. */
  datatype MonitorState = MonitorState(history: seq<real>, files: Files, output: seq<Output>)

  /** One pass of the loop body. */
  function Step(s: MonitorState, cfg: Config, input: CycleInput): MonitorState
  {
    if Skips(input.sensor) then s.(output := s.output + [RetryWait])
    else
      var h := s.history + [SensorValue(input.sensor)];
      var m := Smoothed(h);
      MonitorState(h, Logged(s.files, m, cfg.logPath, input.env), s.output + CycleOutput(m, cfg, input.env))
  }

  /** The first |inputs| passes of the loop, from state s. */
  function RunFrom(s: MonitorState, cfg: Config, inputs: seq<CycleInput>): MonitorState
  {
    if inputs == [] then s
    else Step(RunFrom(s, cfg, inputs[..|inputs| - 1]), cfg, inputs[|inputs| - 1])
  }

  /** The readings of the cycles that were not skipped, in order. */
  function Accepted(inputs: seq<CycleInput>): seq<real>
  {
    if inputs == [] then []
    else
      var last := inputs[|inputs| - 1];
      Accepted(inputs[..|inputs| - 1]) + (if Skips(last.sensor) then [] else [SensorValue(last.sensor)])
  }

  /** A skipped cycle leaves the window and the files alone and only waits before retrying. */
  lemma SkipLeavesState(s: MonitorState, cfg: Config, input: CycleInput)
    requires Skips(input.sensor)
    ensures Step(s, cfg, input) == MonitorState(s.history, s.files, s.output + [RetryWait])
  {
  }

  /**
   * A cycle that is not skipped pushes the reading, prints the smoothed value in its
   * band first and the poll pause last, and warns exactly when the smoothed value is
   * strictly above the threshold.
   */
  lemma {:induction false} AcceptedCycle(s: MonitorState, cfg: Config, input: CycleInput)
    requires !Skips(input.sensor)
    ensures var r := Step(s, cfg, input);
      var m := Smoothed(s.history + [SensorValue(input.sensor)]);
      var out := r.output[|s.output|..];
      r.history == s.history + [SensorValue(input.sensor)] &&
      r.output[..|s.output|] == s.output &&
      2 <= |out| <= 4 &&
      out[0] == Current(BandOf(m), m) && out[|out| - 1] == PollWait(cfg.pollInterval) &&
      (AboveThreshold(m) in out <==> m > cfg.threshold) &&
      (LogOpenError in out <==> OpenFails(m, input.env))
  {
    var r := Step(s, cfg, input);
    var m := Smoothed(s.history + [SensorValue(input.sensor)]);
    assert r.output == s.output + CycleOutput(m, cfg, input.env);
    assert r.output[|s.output|..] == CycleOutput(m, cfg, input.env);
  }

  /**
   * When every reading the window averages is at most 65 degrees, the cycle writes
   * nothing and rotates nothing.
   */
  lemma CoolWindowLeavesFiles(s: MonitorState, cfg: Config, input: CycleInput)
    requires !Skips(input.sensor)
    requires var h := s.history + [SensorValue(input.sensor)];
      forall i :: |h| - SampleCount(|h|) <= i < |h| ==> h[i] <= LogFloor
    ensures Step(s, cfg, input).files == s.files
  {
    var h := s.history + [SensorValue(input.sensor)];
    SmoothedAtMost(h, LogFloor);
  }

  /** The window has seen exactly the readings of the cycles that were not skipped. */
  lemma {:induction false} RunHistory(s: MonitorState, cfg: Config, inputs: seq<CycleInput>)
    ensures RunFrom(s, cfg, inputs).history == s.history + Accepted(inputs)
  {
    if inputs != [] {
      RunHistory(s, cfg, inputs[..|inputs| - 1]);
    }
  }

  /**
   * A pass whose sensor query fails, appended to any run, leaves the window and the
   * files as the run left them and only adds the one-second retry pause.
   */
  lemma FailedPassSkips(s: MonitorState, cfg: Config, inputs: seq<CycleInput>, env: WriteEnv)
    ensures var before := RunFrom(s, cfg, inputs);
      var after := RunFrom(s, cfg, inputs + [CycleInput(None, env)]);
      after.history == before.history && after.files == before.files &&
      after.output == before.output + [RetryWait]
  {
    var longer := inputs + [CycleInput(None, env)];
    assert longer[..|longer| - 1] == inputs;
  }

  /** Everything printed before stays printed: runs only ever add output. */
  lemma {:induction false} RunExtendsOutput(s: MonitorState, cfg: Config, inputs: seq<CycleInput>)
    ensures var r := RunFrom(s, cfg, inputs);
      |s.output| <= |r.output| && r.output[..|s.output|] == s.output
  {
    if inputs != [] {
      RunExtendsOutput(s, cfg, inputs[..|inputs| - 1]);
    }
  }

  /** A run keeps every monitor line in every file above the floor and in its own band. */
  lemma {:induction false} RunKeepsLogWellFormed(s: MonitorState, cfg: Config, inputs: seq<CycleInput>)
    requires WellFormedLog(s.files)
    ensures WellFormedLog(RunFrom(s, cfg, inputs).files)
  {
    if inputs != [] {
      var before := RunFrom(s, cfg, inputs[..|inputs| - 1]);
      RunKeepsLogWellFormed(s, cfg, inputs[..|inputs| - 1]);
      var input := inputs[|inputs| - 1];
      if !Skips(input.sensor) {
        var m := Smoothed(before.history + [SensorValue(input.sensor)]);
        LoggedKeepsWellFormed(before.files, m, cfg.logPath, input.env);
      }
    }
  }

  /** Running one more cycle is one more step. */
  lemma RunFromSnoc(s: MonitorState, cfg: Config, inputs: seq<CycleInput>, i: nat)
    requires i < |inputs|
    ensures RunFrom(s, cfg, inputs[..i + 1]) == Step(RunFrom(s, cfg, inputs[..i]), cfg, inputs[i])
  {
    assert inputs[..i + 1][..i] == inputs[..i];
  }

  /** Output of one step depends only on what was printed before by appending. */
  lemma StepAppendsOutput(h: seq<real>, files: Files, out: seq<Output>, cfg: Config, input: CycleInput)
    ensures var clean := Step(MonitorState(h, files, []), cfg, input);
      Step(MonitorState(h, files, out), cfg, input) == clean.(output := out + clean.output)
  {
    if !Skips(input.sensor) {
      var m := Smoothed(h + [SensorValue(input.sensor)]);
      assert [] + CycleOutput(m, cfg, input.env) == CycleOutput(m, cfg, input.env);
    } else {
      assert [] + [RetryWait] == [RetryWait];
    }
  }

  /** One pass of the loop body on the window and the file system. */
  method Cycle(w: SmoothingWindow, fs: FileSystem, cfg: Config, input: CycleInput) returns (events: seq<Output>)
    requires w.Valid()
    modifies w, w.samples, fs
    ensures w.Valid()
    ensures Skips(input.sensor) ==> unchanged(w) && unchanged(w.samples) && unchanged(fs)
    ensures MonitorState(w.history, fs.files, events) ==
      Step(MonitorState(old(w.history), old(fs.files), []), cfg, input)
  {
    var temperature := SensorValue(input.sensor);
    if temperature < 0.0 {
      events := [RetryWait];
      return;
    }
    var smoothed := w.Push(temperature);
    events := [Current(BandOf(smoothed), smoothed)];
    var openFailed := LogTemperature(fs, smoothed, cfg.logPath, input.env);
    if openFailed {
      events := events + [LogOpenError];
    }
    if WarnsAbove(smoothed, cfg.threshold) {
      events := events + [AboveThreshold(smoothed)];
    }
    events := events + [PollWait(cfg.pollInterval)];
  }

  /** The first |inputs| passes of the loop, printing as it goes. */
  method Run(w: SmoothingWindow, fs: FileSystem, cfg: Config, inputs: seq<CycleInput>) returns (output: seq<Output>)
    requires w.Valid()
    modifies w, w.samples, fs
    ensures w.Valid()
    ensures MonitorState(w.history, fs.files, output) ==
      RunFrom(MonitorState(old(w.history), old(fs.files), []), cfg, inputs)
  {
    ghost var start := MonitorState(w.history, fs.files, []);
    output := [];
    var i := 0;
    while i < |inputs|
      invariant 0 <= i <= |inputs|
      invariant w.Valid()
      invariant MonitorState(w.history, fs.files, output) == RunFrom(start, cfg, inputs[..i])
    {
      ghost var h, files, before := w.history, fs.files, output;
      var events := Cycle(w, fs, cfg, inputs[i]);
      StepAppendsOutput(h, files, before, cfg, inputs[i]);
      RunFromSnoc(start, cfg, inputs, i);
      output := output + events;
      i := i + 1;
    }
    assert inputs[..|inputs|] == inputs;
  }
}
