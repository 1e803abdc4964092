/**
 * run_latency_tests as an imperative program: the session counters are fields of a
 * `Session` object updated in place, the device writes go through an `Actuator`, and the
 * loop consumes one sensor observation per attempt. Each piece is proved equal to the
 * functions of module SessionModel.
 */
module SessionRunner {
  import opened Wrappers
  import opened Hid
  import opened Classifier
  import opened LogFile
  import opened SessionModel

  class Session {
    const cfg: Config
    const logFile: Option<string>
    const hid: Actuator

    var shotsAvailable: int
    var successfulTests: nat
    var consecutiveErrors: nat
    var totalTestsAttempted: nat
    var lightCalibrationErrors: nat
    var discardedTooFast: nat
    var discardedTooSlow: nat
    var timeoutErrors: nat
    var totalLatency: real
    /** The rows appended to the CSV log file, one latency each. */
    var log: seq<real>

    /** The session's abstract state. */
    function State(): SessionState
      reads this, hid
    {
      SessionState(shotsAvailable, successfulTests, consecutiveErrors, totalTestsAttempted,
                   lightCalibrationErrors, discardedTooFast, discardedTooSlow, timeoutErrors,
                   totalLatency, hid.writes, log)
    }

    /** The counter initialisation at the start of run_latency_tests. */
    constructor (cfg: Config, logFile: Option<string>, hid: Actuator)
      requires ValidConfig(cfg)
      ensures this.cfg == cfg && this.logFile == logFile && this.hid == hid
      ensures State() == LoopEntry(cfg).(writes := hid.writes)
    {
      this.cfg := cfg;
      this.logFile := logFile;
      this.hid := hid;
      shotsAvailable := cfg.magSize;
      successfulTests := 0;
      consecutiveErrors := 0;
      totalTestsAttempted := 0;
      lightCalibrationErrors := 0;
      discardedTooFast := 0;
      discardedTooSlow := 0;
      timeoutErrors := 0;
      totalLatency := 0.0;
      log := [];
    }

    /** log_result: one row, only when a log file is in use. */
    method LogResult(dataPoint: real)
      modifies this
      ensures log == old(log) + (if Named(logFile) then [dataPoint] else [])
      ensures State() == old(State()).(log := log)
    {
      if Named(logFile) {
        log := log + [dataPoint];
      }
    }

    /** The classification of a measured latency (the if/else of the loop body). */
    method RecordLatency(latencyMs: real)
      modifies this
      ensures State() == Record(cfg, logFile, old(State()), latencyMs)
    {
      match Classify(latencyMs, cfg.tooFast, cfg.tooSlow) {
        case Valid =>
          LogResult(latencyMs);
          totalLatency := totalLatency + latencyMs;
          successfulTests := successfulTests + 1;
          consecutiveErrors := 0;
        case TooSlow =>
          discardedTooSlow := discardedTooSlow + 1;
          consecutiveErrors := consecutiveErrors + 1;
        case TooFast =>
          discardedTooFast := discardedTooFast + 1;
          consecutiveErrors := consecutiveErrors + 1;
      }
    }

    /** The reload check that ends a classified attempt. */
    method ReloadCheck()
      requires hid.mock == cfg.mock
      modifies this, hid
      ensures State() == ReloadIfLow(cfg, old(State()))
    {
      if shotsAvailable <= 1 {
        hid.ReloadWeapon();
        shotsAvailable := cfg.magSize;
      }
    }

    /** One iteration of the session loop. */
    method Attempt(o: Obs)
      requires hid.mock == cfg.mock
      modifies this, hid
      ensures State() == Step(cfg, logFile, old(State()), o)
    {
      totalTestsAttempted := totalTestsAttempted + 1;
      if o.PreTriggered? {
        lightCalibrationErrors := lightCalibrationErrors + 1;
        consecutiveErrors := consecutiveErrors + 1;
        return;
      }
      hid.FireWeapon();
      shotsAvailable := shotsAvailable - 1;
      if o.Timeout? {
        timeoutErrors := timeoutErrors + 1;
        consecutiveErrors := consecutiveErrors + 1;
        return;
      }
      RecordLatency(o.latencyMs);
      ReloadCheck();
    }

    /**
     * The `while` loop of run_latency_tests, consuming one observation per attempt. Under the
     * loop invariant enough observations are given for the loop to reach its own exit.
     */
    method RunLoop(obs: seq<Obs>)
      requires hid.mock == cfg.mock
      requires Inv(cfg, logFile, State())
      requires totalTestsAttempted + |obs| >= 5 * cfg.tests
      modifies this, hid
      ensures State() == Run(cfg, logFile, old(State()), obs)
      ensures !Continues(cfg, State())
    {
      ghost var start := State();
      ghost var attempted0 := totalTestsAttempted;
      var i := 0;
      while successfulTests < cfg.tests && consecutiveErrors < MaxConsecutiveErrors
        invariant 0 <= i <= |obs| && totalTestsAttempted == attempted0 + i
        invariant Inv(cfg, logFile, State())
        invariant Run(cfg, logFile, State(), obs[i..]) == Run(cfg, logFile, start, obs)
        decreases |obs| - i
      {
        StepPreservesInv(cfg, logFile, State(), obs[i]);
        assert obs[i..][1..] == obs[i + 1..];
        Attempt(obs[i]);
        i := i + 1;
      }
    }
  }

  /**
   * run_latency_tests: resolve the log name, prepare, loop until the target or five
   * consecutive errors, then report. The report is computed as the source does, so a target
   * of 0 or less ends in ZeroDivisionError. `logExists` and `timestamp` stand for the file-system
   * and clock queries; `obs` holds the sensor's result for each attempt in order.
   */
  method RunLatencyTests(cfg: Config, logExists: bool, timestamp: string, obs: seq<Obs>)
    returns (report: Result<Report>, writes: seq<HidWrite>, log: seq<real>)
    requires ValidConfig(cfg)
    requires |obs| >= 5 * cfg.tests
    ensures var final := Run(cfg, UniqueLogFilename(cfg.log, logExists, timestamp), LoopEntry(cfg), obs);
      && report == ReportAsWritten(cfg, final) && writes == final.writes && log == final.log
      && (cfg.tests >= 1 ==> report == Ok(FinalReport(cfg, final)))
    ensures report.Err? <==> cfg.tests <= 0
    ensures report.Ok? ==> report.value.Completed? || report.value.Stopped?
    ensures Pulses(writes) && (cfg.mock ==> writes == [])
    ensures Named(cfg.log) || log == []
  {
    var logFile := UniqueLogFilename(cfg.log, logExists, timestamp);
    var hid := new Actuator(cfg.mock);
    var session := new Session(cfg, logFile, hid);
    hid.PrepCycle(cfg.weapon);
    assert session.State() == LoopEntry(cfg);
    LoopEntryInv(cfg, logFile);
    session.RunLoop(obs);
    var final := session.State();
    report := ReportAsWritten(cfg, final);
    writes, log := final.writes, final.log;
    SessionReport(cfg, logFile, obs);
    SessionEnds(cfg, logFile, obs);
    if cfg.tests <= 0 {
      ZeroTargetCrashes(cfg, logFile, obs);
    }
  }
}
