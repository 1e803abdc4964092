/**
 * The latency-test session as a state machine on values: one `Step` per iteration of the
 * session loop, `Run` for the whole loop, and the final report. The imperative session in
 * module SessionRunner is proved equal to these functions.
 */
module SessionModel {
  import opened Wrappers
  import opened Hid
  import opened Classifier
  import opened LogFile

  /** The command-line arguments of one session (sleep durations are not modelled). */
  datatype Config = Config(
    tests: int,
    weapon: int,
    magSize: int,
    tooSlow: real,
    tooFast: real,
    log: Option<string>,
    mock: bool)

  /** The weapon slot is restricted to 1, 2 or 3 by the argument parser. */
  predicate ValidConfig(cfg: Config)
  {
    1 <= cfg.weapon <= 3
  }

  /**
   * What the photo-sensor reports for one attempt: light already on before firing, no light
   * within the 3-second deadline, or light seen `latencyMs` milliseconds after firing.
   */
  datatype Obs = PreTriggered | Timeout | Triggered(latencyMs: real)

  const MaxConsecutiveErrors := 5

  /** The session's counters, the device writes so far and the rows of the CSV log. */
  datatype SessionState = SessionState(
    shotsAvailable: int,
    successfulTests: nat,
    consecutiveErrors: nat,
    totalTestsAttempted: nat,
    lightCalibrationErrors: nat,
    discardedTooFast: nat,
    discardedTooSlow: nat,
    timeoutErrors: nat,
    totalLatency: real,
    writes: seq<HidWrite>,
    log: seq<real>)

  /** The state when the loop is first entered: counters initialised, prep cycle written. */
  function LoopEntry(cfg: Config): (s: SessionState)
    requires ValidConfig(cfg)
    ensures s.consecutiveErrors == 0
    ensures s.successfulTests == s.lightCalibrationErrors == s.timeoutErrors == 0
    ensures s.discardedTooFast == s.discardedTooSlow == 0
    ensures s.totalLatency == 0.0 && s.log == []
    ensures s.shotsAvailable == cfg.magSize && s.writes == PrepWrites(cfg.weapon, cfg.mock)
    ensures Continues(cfg, s) <==> cfg.tests > 0
  {
    SessionState(cfg.magSize, 0, 0, 0, 0, 0, 0, 0, 0.0, PrepWrites(cfg.weapon, cfg.mock), [])
  }

  /** The loop condition. */
  predicate Continues(cfg: Config, s: SessionState)
  {
    s.successfulTests < cfg.tests && s.consecutiveErrors < MaxConsecutiveErrors
  }

  /** The sum of the five outcome counters. */
  function Outcomes(s: SessionState): nat
  {
    s.lightCalibrationErrors + s.timeoutErrors + s.successfulTests + s.discardedTooFast + s.discardedTooSlow
  }

  /** The outcome of one attempt, as the session loop tells them apart. */
  datatype AttemptOutcome = CalibrationFault | TriggerTimeout | Classified(outcome: Outcome)

  function OutcomeOf(cfg: Config, o: Obs): AttemptOutcome
  {
    match o
    case PreTriggered => CalibrationFault
    case Timeout => TriggerTimeout
    case Triggered(v) => Classified(Classify(v, cfg.tooFast, cfg.tooSlow))
  }

  predicate IsValid(cfg: Config, o: Obs)
  {
    OutcomeOf(cfg, o) == Classified(Valid)
  }

  function Bump(b: bool): nat
  {
    if b then 1 else 0
  }

  /** A classified latency: log and accumulate it when Valid, otherwise count the discard. */
  function Record(cfg: Config, logFile: Option<string>, s: SessionState, latencyMs: real): SessionState
  {
    match Classify(latencyMs, cfg.tooFast, cfg.tooSlow)
    case Valid =>
      s.(log := s.log + (if Named(logFile) then [latencyMs] else []),
         totalLatency := s.totalLatency + latencyMs,
         successfulTests := s.successfulTests + 1,
         consecutiveErrors := 0)
    case TooSlow =>
      s.(discardedTooSlow := s.discardedTooSlow + 1, consecutiveErrors := s.consecutiveErrors + 1)
    case TooFast =>
      s.(discardedTooFast := s.discardedTooFast + 1, consecutiveErrors := s.consecutiveErrors + 1)
  }

  /**
   * Recording a latency counts exactly one outcome, succeeds exactly on a latency within the
   * thresholds, resets the error run on success and lengthens it otherwise, and fires nothing.
   */
  lemma RecordEffect(cfg: Config, logFile: Option<string>, s: SessionState, latencyMs: real)
    ensures var r := Record(cfg, logFile, s, latencyMs);
      && Outcomes(r) == Outcomes(s) + 1
      && r.totalTestsAttempted == s.totalTestsAttempted
      && r.shotsAvailable == s.shotsAvailable && r.writes == s.writes
      && (r.successfulTests > s.successfulTests <==> cfg.tooFast <= latencyMs <= cfg.tooSlow)
      && r.consecutiveErrors == (if r.successfulTests > s.successfulTests then 0 else s.consecutiveErrors + 1)
      && r.totalLatency == s.totalLatency + (if r.successfulTests > s.successfulTests then latencyMs else 0.0)
  {
  }

  /** The reload check at the end of a classified attempt. */
  function ReloadIfLow(cfg: Config, s: SessionState): SessionState
  {
    if s.shotsAvailable <= 1 then
      s.(writes := s.writes + PressWrites('r', cfg.mock), shotsAvailable := cfg.magSize)
    else s
  }

  /** The reload check refills and presses reload exactly when one shot or fewer is left, and changes nothing else. */
  lemma ReloadEffect(cfg: Config, s: SessionState)
    ensures var r := ReloadIfLow(cfg, s);
      && r.shotsAvailable == (if s.shotsAvailable <= 1 then cfg.magSize else s.shotsAvailable)
      && r.writes == s.writes + (if s.shotsAvailable <= 1 then PressWrites('r', cfg.mock) else [])
      && r.(shotsAvailable := s.shotsAvailable, writes := s.writes) == s
  {
  }

  /**
   * One iteration of the session loop. A calibration fault fires nothing; a timeout fires and
   * uses a shot but leaves before the reload check; a classified attempt may reload.
   */
  function Step(cfg: Config, logFile: Option<string>, s: SessionState, o: Obs): (r: SessionState)
    ensures r.totalTestsAttempted == s.totalTestsAttempted + 1
    ensures var k := OutcomeOf(cfg, o);
      && r.lightCalibrationErrors == s.lightCalibrationErrors + Bump(k == CalibrationFault)
      && r.timeoutErrors == s.timeoutErrors + Bump(k == TriggerTimeout)
      && r.successfulTests == s.successfulTests + Bump(k == Classified(Valid))
      && r.discardedTooFast == s.discardedTooFast + Bump(k == Classified(TooFast))
      && r.discardedTooSlow == s.discardedTooSlow + Bump(k == Classified(TooSlow))
    ensures r.consecutiveErrors == if IsValid(cfg, o) then 0 else s.consecutiveErrors + 1
    ensures r.totalLatency == s.totalLatency + (if IsValid(cfg, o) then o.latencyMs else 0.0)
    ensures r.log == s.log + (if IsValid(cfg, o) && Named(logFile) then [o.latencyMs] else [])
    ensures o.PreTriggered? ==> r.shotsAvailable == s.shotsAvailable && r.writes == s.writes
    ensures o.Timeout? ==> r.shotsAvailable == s.shotsAvailable - 1 && r.writes == s.writes + ClickWrites(cfg.mock)
    ensures o.Triggered? ==>
      if s.shotsAvailable - 1 <= 1
      then r.shotsAvailable == cfg.magSize && r.writes == s.writes + ClickWrites(cfg.mock) + PressWrites('r', cfg.mock)
      else r.shotsAvailable == s.shotsAvailable - 1 && r.writes == s.writes + ClickWrites(cfg.mock)
  {
    var s1 := s.(totalTestsAttempted := s.totalTestsAttempted + 1);
    match o
    case PreTriggered =>
      s1.(lightCalibrationErrors := s.lightCalibrationErrors + 1,
          consecutiveErrors := s.consecutiveErrors + 1)
    case Timeout =>
      s1.(shotsAvailable := s.shotsAvailable - 1,
          writes := s.writes + ClickWrites(cfg.mock),
          timeoutErrors := s.timeoutErrors + 1,
          consecutiveErrors := s.consecutiveErrors + 1)
    case Triggered(v) =>
      var fired := s1.(shotsAvailable := s.shotsAvailable - 1, writes := s.writes + ClickWrites(cfg.mock));
      ReloadIfLow(cfg, Record(cfg, logFile, fired, v))
  }

  /**
   * The session loop from `s` on the observations `obs`. It stops when the loop condition
   * fails or, in the model only, when the observations run out (see RunTerminates).
   */
  function Run(cfg: Config, logFile: Option<string>, s: SessionState, obs: seq<Obs>): (r: SessionState)
    ensures s.totalTestsAttempted <= r.totalTestsAttempted <= s.totalTestsAttempted + |obs|
    ensures s.successfulTests <= r.successfulTests
    ensures s.writes <= r.writes && s.log <= r.log
    ensures !Continues(cfg, s) ==> r == s
    decreases |obs|
  {
    if !Continues(cfg, s) || obs == [] then s
    else Run(cfg, logFile, Step(cfg, logFile, s, obs[0]), obs[1..])
  }

  function Sum(xs: seq<real>): real
  {
    if xs == [] then 0.0 else Sum(xs[..|xs| - 1]) + xs[|xs| - 1]
  }

  /** Counter part of the loop invariant. */
  predicate CounterInv(cfg: Config, s: SessionState)
  {
    // every attempt has exactly one outcome
    && s.totalTestsAttempted == Outcomes(s)
    && s.consecutiveErrors <= MaxConsecutiveErrors
    && (s.successfulTests <= cfg.tests || s.successfulTests == 0)
    && (s.successfulTests >= cfg.tests ==> s.consecutiveErrors == 0)
    // at most four errors come before each success
    && s.totalTestsAttempted <= 5 * s.successfulTests + s.consecutiveErrors
  }

  /** Latency part of the loop invariant: only Valid latencies are accumulated and logged. */
  predicate LatencyInv(cfg: Config, logFile: Option<string>, s: SessionState)
  {
    TotalInv(cfg, s) && LogInv(cfg, logFile, s)
  }

  predicate TotalInv(cfg: Config, s: SessionState)
  {
    cfg.tooFast * (s.successfulTests as real) <= s.totalLatency <= cfg.tooSlow * (s.successfulTests as real)
  }

  predicate LogInv(cfg: Config, logFile: Option<string>, s: SessionState)
  {
    if Named(logFile)
    then |s.log| == s.successfulTests && Sum(s.log) == s.totalLatency &&
         forall i :: 0 <= i < |s.log| ==> cfg.tooFast <= s.log[i] <= cfg.tooSlow
    else s.log == []
  }

  /** Trace part of the loop invariant: press/release pulses only, and nothing in mock mode. */
  predicate TraceInv(cfg: Config, s: SessionState)
  {
    Pulses(s.writes) && (cfg.mock ==> s.writes == [])
  }

  /** The invariant the session loop keeps. */
  predicate Inv(cfg: Config, logFile: Option<string>, s: SessionState)
  {
    CounterInv(cfg, s) && LatencyInv(cfg, logFile, s) && TraceInv(cfg, s)
  }

  lemma LoopEntryInv(cfg: Config, logFile: Option<string>)
    requires ValidConfig(cfg)
    ensures Inv(cfg, logFile, LoopEntry(cfg))
  {
    PrepWritesOrder(cfg.weapon, cfg.mock);
  }

  lemma StepCounterInv(cfg: Config, logFile: Option<string>, s: SessionState, o: Obs)
    requires CounterInv(cfg, s) && Continues(cfg, s)
    ensures CounterInv(cfg, Step(cfg, logFile, s, o))
  {
  }

  lemma MulSucc(c: real, n: nat)
    ensures c * ((n + 1) as real) == c * (n as real) + c
  {
  }

  lemma StepTotalInv(cfg: Config, logFile: Option<string>, s: SessionState, o: Obs)
    requires TotalInv(cfg, s)
    ensures TotalInv(cfg, Step(cfg, logFile, s, o))
  {
    var r := Step(cfg, logFile, s, o);
    if IsValid(cfg, o) {
      var v := o.latencyMs;
      assert cfg.tooFast <= v <= cfg.tooSlow;
      assert r.successfulTests == s.successfulTests + 1 && r.totalLatency == s.totalLatency + v;
      MulSucc(cfg.tooFast, s.successfulTests);
      MulSucc(cfg.tooSlow, s.successfulTests);
    } else {
      assert r.successfulTests == s.successfulTests && r.totalLatency == s.totalLatency;
    }
  }

  lemma StepLogInv(cfg: Config, logFile: Option<string>, s: SessionState, o: Obs)
    requires LogInv(cfg, logFile, s)
    ensures LogInv(cfg, logFile, Step(cfg, logFile, s, o))
  {
    var r := Step(cfg, logFile, s, o);
    if IsValid(cfg, o) && Named(logFile) {
      var v := o.latencyMs;
      assert cfg.tooFast <= v <= cfg.tooSlow;
      assert r.log == s.log + [v] && r.totalLatency == s.totalLatency + v;
      assert r.log[..|r.log| - 1] == s.log;
    } else {
      assert r.log == s.log;
      assert IsValid(cfg, o) ==> r.successfulTests == s.successfulTests + 1 && r.totalLatency == s.totalLatency + o.latencyMs;
      assert !IsValid(cfg, o) ==> r.successfulTests == s.successfulTests && r.totalLatency == s.totalLatency;
    }
  }

  lemma StepTraceInv(cfg: Config, logFile: Option<string>, s: SessionState, o: Obs)
    requires TraceInv(cfg, s)
    ensures TraceInv(cfg, Step(cfg, logFile, s, o))
  {
    PulsesAppend(s.writes, ClickWrites(cfg.mock));
    PulsesAppend(s.writes + ClickWrites(cfg.mock), PressWrites('r', cfg.mock));
  }

  lemma StepPreservesInv(cfg: Config, logFile: Option<string>, s: SessionState, o: Obs)
    requires Inv(cfg, logFile, s) && Continues(cfg, s)
    ensures Inv(cfg, logFile, Step(cfg, logFile, s, o))
  {
    StepCounterInv(cfg, logFile, s, o);
    StepTotalInv(cfg, logFile, s, o);
    StepLogInv(cfg, logFile, s, o);
    StepTraceInv(cfg, logFile, s, o);
  }

  lemma {:induction false} RunPreservesInv(cfg: Config, logFile: Option<string>, s: SessionState, obs: seq<Obs>)
    requires Inv(cfg, logFile, s)
    ensures Inv(cfg, logFile, Run(cfg, logFile, s, obs))
    decreases |obs|
  {
    if Continues(cfg, s) && obs != [] {
      StepPreservesInv(cfg, logFile, s, obs[0]);
      RunPreservesInv(cfg, logFile, Step(cfg, logFile, s, obs[0]), obs[1..]);
    }
  }

  /**
   * While the loop runs, fewer than `5 * tests` attempts have been made, so `5 * tests`
   * observations always bring the loop to its own exit.
   */
  lemma {:induction false} RunTerminates(cfg: Config, logFile: Option<string>, s: SessionState, obs: seq<Obs>)
    requires Inv(cfg, logFile, s)
    requires s.totalTestsAttempted + |obs| >= 5 * cfg.tests
    ensures !Continues(cfg, Run(cfg, logFile, s, obs))
    decreases |obs|
  {
    if Continues(cfg, s) && obs != [] {
      StepPreservesInv(cfg, logFile, s, obs[0]);
      RunTerminates(cfg, logFile, Step(cfg, logFile, s, obs[0]), obs[1..]);
    }
  }

  /** The whole session: how the loop ends and how many attempts it takes. */
  lemma SessionEnds(cfg: Config, logFile: Option<string>, obs: seq<Obs>)
    requires ValidConfig(cfg)
    requires |obs| >= 5 * cfg.tests
    ensures var f := Run(cfg, logFile, LoopEntry(cfg), obs);
      && Inv(cfg, logFile, f)
      && f.consecutiveErrors <= MaxConsecutiveErrors
      && (f.successfulTests >= cfg.tests || f.consecutiveErrors == MaxConsecutiveErrors)
      && (cfg.tests >= 0 ==> f.successfulTests <= cfg.tests)
      && (cfg.tests >= 1 ==> 1 <= f.totalTestsAttempted <= 5 * cfg.tests)
  {
    var s := LoopEntry(cfg);
    LoopEntryInv(cfg, logFile);
    RunPreservesInv(cfg, logFile, s, obs);
    RunTerminates(cfg, logFile, s, obs);
    var f := Run(cfg, logFile, s, obs);
    if cfg.tests >= 1 {
      assert Continues(cfg, s) && obs != [];
      assert f == Run(cfg, logFile, Step(cfg, logFile, s, obs[0]), obs[1..]);
    }
  }

  /** `total_latency / successful_tests`, or 0 when nothing succeeded. */
  function AverageLatency(s: SessionState): (a: real)
    ensures s.successfulTests == 0 ==> a == 0.0
    ensures s.successfulTests > 0 ==> a * (s.successfulTests as real) == s.totalLatency
  {
    if s.successfulTests > 0 then s.totalLatency / (s.successfulTests as real) else 0.0
  }

  lemma NonNegativeFactor(x: real, n: real)
    requires n > 0.0 && x * n >= 0.0
    ensures x >= 0.0
  {
  }

  lemma QuotientBounds(total: real, n: real, lo: real, hi: real)
    requires n > 0.0 && lo * n <= total <= hi * n
    ensures lo <= total / n <= hi
  {
    var q := total / n;
    assert (q - lo) * n == total - lo * n;
    assert (hi - q) * n == hi * n - total;
    NonNegativeFactor(q - lo, n);
    NonNegativeFactor(hi - q, n);
  }

  /** Only Valid latencies are averaged, so the average lies between the thresholds. */
  lemma AverageWithinThresholds(cfg: Config, logFile: Option<string>, s: SessionState)
    requires Inv(cfg, logFile, s) && s.successfulTests > 0
    ensures cfg.tooFast <= AverageLatency(s) <= cfg.tooSlow
  {
    QuotientBounds(s.totalLatency, s.successfulTests as real, cfg.tooFast, cfg.tooSlow);
  }

  /** The numbers of the completed-session summary. */
  datatype Summary = Summary(
    successfulTests: nat,
    totalTestsAttempted: nat,
    lightCalibrationErrors: nat,
    calibrationPct: real,
    discardedTooFast: nat,
    tooFastPct: real,
    discardedTooSlow: nat,
    tooSlowPct: real,
    timeoutErrors: nat,
    timeoutPct: real,
    averageLatency: real)

  /** The final report: the summary, the consecutive-errors message, or (neither holding) nothing. */
  datatype Report = Completed(summary: Summary) | Stopped | Silent

  /** `count / attempted * 100` as written: Python raises ZeroDivisionError for 0 attempts. */
  function PercentAsWritten(count: nat, attempted: nat): (p: Result<real>)
    ensures p.Err? <==> attempted == 0
    ensures p.Ok? ==> p.value * (attempted as real) == (count as real) * 100.0
  {
    if attempted == 0 then Err("ZeroDivisionError")
    else Ok((count as real) / (attempted as real) * 100.0)
  }

  /** The percentage with the zero-attempt case defined as 0, as the average already is. */
  function Percent(count: nat, attempted: nat): (p: real)
    ensures attempted == 0 ==> p == 0.0
    ensures attempted > 0 ==> PercentAsWritten(count, attempted) == Ok(p)
  {
    if attempted == 0 then 0.0 else (count as real) / (attempted as real) * 100.0
  }

  /** The final report as the source computes it, division included. */
  function ReportAsWritten(cfg: Config, s: SessionState): (r: Result<Report>)
    ensures r.Err? <==> s.successfulTests >= cfg.tests && s.totalTestsAttempted == 0
    ensures r.Ok? ==> (r.value.Completed? <==> s.successfulTests >= cfg.tests)
    ensures r.Ok? ==> (r.value.Stopped? <==> s.successfulTests < cfg.tests && s.consecutiveErrors >= MaxConsecutiveErrors)
  {
    if s.successfulTests >= cfg.tests then
      var n := s.totalTestsAttempted;
      match (PercentAsWritten(s.lightCalibrationErrors, n), PercentAsWritten(s.discardedTooFast, n),
             PercentAsWritten(s.discardedTooSlow, n), PercentAsWritten(s.timeoutErrors, n))
      case (Ok(c), Ok(f), Ok(w), Ok(t)) =>
        Ok(Completed(Summary(s.successfulTests, n, s.lightCalibrationErrors, c, s.discardedTooFast, f,
                             s.discardedTooSlow, w, s.timeoutErrors, t, AverageLatency(s))))
      case _ => Err("ZeroDivisionError")
    else if s.consecutiveErrors >= MaxConsecutiveErrors then Ok(Stopped)
    else Ok(Silent)
  }

  /** The final report, with percentages of zero attempts defined as 0. */
  function FinalReport(cfg: Config, s: SessionState): (r: Report)
    ensures r.Completed? <==> s.successfulTests >= cfg.tests
    ensures r.Stopped? <==> s.successfulTests < cfg.tests && s.consecutiveErrors >= MaxConsecutiveErrors
    ensures r.Completed? ==>
      r.summary.successfulTests == s.successfulTests &&
      r.summary.totalTestsAttempted == s.totalTestsAttempted &&
      r.summary.lightCalibrationErrors == s.lightCalibrationErrors &&
      r.summary.discardedTooFast == s.discardedTooFast &&
      r.summary.discardedTooSlow == s.discardedTooSlow &&
      r.summary.timeoutErrors == s.timeoutErrors &&
      r.summary.averageLatency == AverageLatency(s)
    ensures r.Completed? ==>
      r.summary.calibrationPct == Percent(s.lightCalibrationErrors, s.totalTestsAttempted) &&
      r.summary.tooFastPct == Percent(s.discardedTooFast, s.totalTestsAttempted) &&
      r.summary.tooSlowPct == Percent(s.discardedTooSlow, s.totalTestsAttempted) &&
      r.summary.timeoutPct == Percent(s.timeoutErrors, s.totalTestsAttempted)
    ensures s.totalTestsAttempted > 0 ==> ReportAsWritten(cfg, s) == Ok(r)
  {
    if s.successfulTests >= cfg.tests then
      var n := s.totalTestsAttempted;
      Completed(Summary(s.successfulTests, n,
                        s.lightCalibrationErrors, Percent(s.lightCalibrationErrors, n),
                        s.discardedTooFast, Percent(s.discardedTooFast, n),
                        s.discardedTooSlow, Percent(s.discardedTooSlow, n),
                        s.timeoutErrors, Percent(s.timeoutErrors, n), AverageLatency(s)))
    else if s.consecutiveErrors >= MaxConsecutiveErrors then Stopped
    else Silent
  }

  /** With a target of 0 or less the loop never runs and the source's report divides by zero. */
  lemma ZeroTargetCrashes(cfg: Config, logFile: Option<string>, obs: seq<Obs>)
    requires ValidConfig(cfg) && cfg.tests <= 0
    ensures ReportAsWritten(cfg, Run(cfg, logFile, LoopEntry(cfg), obs)) == Err("ZeroDivisionError")
    ensures FinalReport(cfg, Run(cfg, logFile, LoopEntry(cfg), obs)).Completed?
  {
  }

  /** A session that reaches its loop exit reports Completed or Stopped, never nothing. */
  lemma SessionReport(cfg: Config, logFile: Option<string>, obs: seq<Obs>)
    requires ValidConfig(cfg)
    requires |obs| >= 5 * cfg.tests
    ensures var f := Run(cfg, logFile, LoopEntry(cfg), obs);
      var r := FinalReport(cfg, f);
      && (r.Completed? || r.Stopped?)
      && (r.Stopped? ==> f.consecutiveErrors == MaxConsecutiveErrors)
      && (r.Completed? && cfg.tests >= 0 ==> f.successfulTests == cfg.tests)
      && (cfg.tests >= 1 ==> ReportAsWritten(cfg, f) == Ok(r))
      && (r.Completed? && f.successfulTests > 0 ==>
            cfg.tooFast <= r.summary.averageLatency <= cfg.tooSlow)
  {
    var f := Run(cfg, logFile, LoopEntry(cfg), obs);
    SessionEnds(cfg, logFile, obs);
    if f.successfulTests > 0 {
      AverageWithinThresholds(cfg, logFile, f);
    }
  }

  /** A classified attempt never leaves one shot or fewer unless the magazine itself is that small. */
  lemma ClassifiedAttemptLeavesShots(cfg: Config, logFile: Option<string>, s: SessionState, v: real)
    ensures var r := Step(cfg, logFile, s, Triggered(v));
      r.shotsAvailable >= 2 || r.shotsAvailable == cfg.magSize
  {
  }

  // Worked scenarios.

  const ScenarioConfig := Config(2, 1, 10, 1000.0, 20.0, None, true)

  /** Latencies 50, 1500, 10, 50 against [20, 1000] with target 2: the state the loop ends in. */
  lemma ScenarioMixedRun()
    ensures Run(ScenarioConfig, None, LoopEntry(ScenarioConfig),
                [Triggered(50.0), Triggered(1500.0), Triggered(10.0), Triggered(50.0)])
         == SessionState(6, 2, 0, 4, 0, 1, 1, 0, 100.0, [], [])
  {
    var c := ScenarioConfig;
    var obs := [Triggered(50.0), Triggered(1500.0), Triggered(10.0), Triggered(50.0)];
    var s0 := LoopEntry(c);
    var s1 := SessionState(9, 1, 0, 1, 0, 0, 0, 0, 50.0, [], []);
    var s2 := SessionState(8, 1, 1, 2, 0, 0, 1, 0, 50.0, [], []);
    var s3 := SessionState(7, 1, 2, 3, 0, 1, 1, 0, 50.0, [], []);
    var s4 := SessionState(6, 2, 0, 4, 0, 1, 1, 0, 100.0, [], []);
    assert Run(c, None, s0, obs) == Run(c, None, s1, obs[1..]) by {
      assert Step(c, None, s0, obs[0]) == s1;
    }
    assert Run(c, None, s1, obs[1..]) == Run(c, None, s2, obs[2..]) by {
      assert Step(c, None, s1, obs[1]) == s2;
    }
    assert Run(c, None, s2, obs[2..]) == Run(c, None, s3, obs[3..]) by {
      assert Step(c, None, s2, obs[2]) == s3;
    }
    assert Run(c, None, s3, obs[3..]) == Run(c, None, s4, obs[4..]) by {
      assert Step(c, None, s3, obs[3]) == s4;
    }
  }

  /** The same session: two successes, one discard each way, average 50, completed. */
  lemma ScenarioMixedOutcomes()
    ensures var f := Run(ScenarioConfig, None, LoopEntry(ScenarioConfig),
                         [Triggered(50.0), Triggered(1500.0), Triggered(10.0), Triggered(50.0)]);
      && f.successfulTests == 2 && f.discardedTooSlow == 1 && f.discardedTooFast == 1
      && f.totalTestsAttempted == 4 && AverageLatency(f) == 50.0
      && FinalReport(ScenarioConfig, f).Completed?
  {
    ScenarioMixedRun();
  }

  /** Five timeouts with target 10 end the session after exactly five attempts. */
  lemma ScenarioFiveTimeouts()
    ensures var c := ScenarioConfig.(tests := 10);
      var f := Run(c, None, LoopEntry(c), [Timeout, Timeout, Timeout, Timeout, Timeout, Timeout]);
      && f.totalTestsAttempted == 5 && f.timeoutErrors == 5 && f.successfulTests == 0
      && FinalReport(c, f).Stopped?
  {
    var c := ScenarioConfig.(tests := 10);
    var s1 := Step(c, None, LoopEntry(c), Timeout);
    var s2 := Step(c, None, s1, Timeout);
    var s3 := Step(c, None, s2, Timeout);
    var s4 := Step(c, None, s3, Timeout);
    var s5 := Step(c, None, s4, Timeout);
    assert !Continues(c, s5);
  }

  /** With a magazine of 3, the reload follows the second shot, not the third. */
  lemma ScenarioReloadAfterSecondShot()
    ensures var c := ScenarioConfig.(tests := 3, magSize := 3, mock := false);
      var s0 := LoopEntry(c);
      var s1 := Step(c, None, s0, Triggered(50.0));
      var s2 := Step(c, None, s1, Triggered(50.0));
      var s3 := Step(c, None, s2, Triggered(50.0));
      && s1.shotsAvailable == 2 && s1.writes == s0.writes + ClickWrites(false)
      && s2.shotsAvailable == 3 && s2.writes == s1.writes + ClickWrites(false) + PressWrites('r', false)
      && s3.shotsAvailable == 2 && s3.writes == s2.writes + ClickWrites(false)
  {
  }

  /** Timeouts use shots without the reload check, so the count can go negative. */
  lemma TimeoutsDrainShotsBelowZero()
    ensures var c := ScenarioConfig.(magSize := 2);
      Run(c, None, LoopEntry(c), [Timeout, Timeout, Timeout]).shotsAvailable == -1
  {
    var c := ScenarioConfig.(magSize := 2);
    var s0 := LoopEntry(c);
    var s1 := Step(c, None, s0, Timeout);
    var s2 := Step(c, None, s1, Timeout);
    var s3 := Step(c, None, s2, Timeout);
    assert [Timeout, Timeout, Timeout][1..] == [Timeout, Timeout];
    assert Run(c, None, s0, [Timeout, Timeout, Timeout]) == Run(c, None, s1, [Timeout, Timeout]);
    assert [Timeout, Timeout][1..] == [Timeout];
    assert Run(c, None, s1, [Timeout, Timeout]) == Run(c, None, s2, [Timeout]);
    assert Run(c, None, s2, [Timeout]) == Run(c, None, s3, []);
  }
}
