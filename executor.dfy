/** The return-to-home executor, run sequentially: every `delay` advances a
    simulated clock, the distance sensor is an oracle giving `distanceCm` at
    each instant, and every `sendCommandSmooth` call the executor makes is
    appended to a trace of calls. */
module Executor {
  import opened Motion
  import opened Options
  import RthMapper
  import Proximity

  const SAFETY_STEP_MS: nat := 20
  const WARNING_CM: int := 10
  const BACKOFF_MS: nat := 60
  const COMPENSATE_MS: nat := 50

  /** One `sendCommandSmooth(ip, channel, command)` call. */
  datatype Call = Call(ip: string, channel: string, command: string)

  /** `distanceCm` of the proximity poller at each instant of the clock. */
  type Sensor = nat -> Option<int>

  /** `isDanger()`: the poller's safety state is DANGER. */
  predicate IsDanger(d: Option<int>)
  {
    Proximity.Classify(d) == Proximity.DANGER
  }

  /** The recovery loop's condition: a reading of at most `WARNING_CM`. */
  predicate TooClose(d: Option<int>)
  {
    d.Some? && d.value <= WARNING_CM
  }

  /** The compensation loop's distance condition. */
  predicate Clear(d: Option<int>)
  {
    d.Some? && d.value > WARNING_CM
  }

  /** The obstacle is gone for good from `horizon` on. Without this, the
      recovery loop can back off forever. */
  ghost predicate ClearsBy(sensor: Sensor, horizon: nat)
  {
    forall t: nat :: t >= horizon ==> !TooClose(sensor(t))
  }

  /* ---------------- path construction ---------------- */

  predicate HasBackward(motions: seq<RthMotionCommand>)
  {
    exists i :: 0 <= i < |motions| && IsBackward(motions[i].motion)
  }

  /** `motions.asReversed().map { it.copy(motion = invert(it.motion)) }`. */
  function BuildRthPath(motions: seq<RthMotionCommand>): (r: seq<RthMotionCommand>)
    ensures |r| == |motions|
    ensures forall k :: 0 <= k < |r| ==>
      r[k] == RthMotionCommand(RthMapper.Invert(motions[|motions| - 1 - k].motion),
                               motions[|motions| - 1 - k].durationMs)
  {
    if |motions| == 0 then []
    else
      var last := motions[|motions| - 1];
      [RthMotionCommand(RthMapper.Invert(last.motion), last.durationMs)]
        + BuildRthPath(motions[..|motions| - 1])
  }

  /** Building the return path twice gives the recorded path back. */
  lemma BuildRthPathInvolutive(motions: seq<RthMotionCommand>)
    ensures BuildRthPath(BuildRthPath(motions)) == motions
  {
    var r := BuildRthPath(BuildRthPath(motions));
    forall k | 0 <= k < |motions| ensures r[k] == motions[k] {
      RthMapper.InvertInvolutive(motions[k].motion);
    }
  }

  /** The return path has a backward step iff the recording had one, so a
      path built because there was none has none either. */
  lemma BuildRthPathKeepsBackward(motions: seq<RthMotionCommand>)
    ensures HasBackward(BuildRthPath(motions)) <==> HasBackward(motions)
  {
    var r := BuildRthPath(motions);
    if HasBackward(motions) {
      var i :| 0 <= i < |motions| && IsBackward(motions[i].motion);
      assert IsBackward(r[|motions| - 1 - i].motion);
    }
    if HasBackward(r) {
      var k :| 0 <= k < |r| && IsBackward(r[k].motion);
      assert IsBackward(motions[|motions| - 1 - k].motion);
    }
  }

  /** The path `execute` plays. */
  function RthPath(motions: seq<RthMotionCommand>): (r: seq<RthMotionCommand>)
    ensures |r| == |motions|
  {
    if HasBackward(motions) then motions else BuildRthPath(motions)
  }

  /* ---------------- dispatcher calls ---------------- */

  function StopBothCalls(ip: string): seq<Call>
  {
    [Call(ip, "a", "stop"), Call(ip, "b", "stop")]
  }

  function DriveCalls(ip: string, a: string, b: string): seq<Call>
  {
    [Call(ip, "a", a), Call(ip, "b", b)]
  }

  /** `sendMotion`: the track pair of each motion; DIAM is `stopBoth`. */
  function MotionCalls(ip: string, m: RobotMotion): (r: seq<Call>)
  {
    match m
    case MAJU => DriveCalls(ip, "maju", "maju")
    case MUNDUR => DriveCalls(ip, "mundur", "mundur")
    case MAJU_BELOK_KANAN => DriveCalls(ip, "maju", "stop")
    case MAJU_BELOK_KIRI => DriveCalls(ip, "stop", "maju")
    case MUNDUR_BELOK_KIRI => DriveCalls(ip, "mundur", "stop")
    case MUNDUR_BELOK_KANAN => DriveCalls(ip, "stop", "mundur")
    case PUTAR_KANAN => DriveCalls(ip, "maju", "mundur")
    case PUTAR_KIRI => DriveCalls(ip, "mundur", "maju")
    case DIAM => StopBothCalls(ip)
  }

  /** Each motion drives its own track pair; DIAM's pair is a stop on both. */
  lemma MotionCallsFollowTracks(ip: string, m: RobotMotion)
    ensures MotionCalls(ip, m) == DriveCalls(ip, Tracks(m).0, Tracks(m).1)
  {
  }

  /** `n` reverse bursts on both tracks. */
  function ReverseCalls(ip: string, n: nat): (r: seq<Call>)
    ensures |r| == 2 * n
  {
    if n == 0 then [] else DriveCalls(ip, "mundur", "mundur") + ReverseCalls(ip, n - 1)
  }

  /** `rotate180`: pivot right, stop, forward nudge, stop. */
  function RotateCalls(ip: string): seq<Call>
  {
    MotionCalls(ip, PUTAR_KANAN) + StopBothCalls(ip) + MotionCalls(ip, MAJU) + StopBothCalls(ip)
  }

  /* ---------------- the loops, as functions ---------------- */

  /** How the slice loop of one step ends: run out, or interrupted by danger,
      with the elapsed time at that point. */
  datatype SliceEnd = Completed(elapsed: nat) | Interrupted(elapsed: nat)

  /** The slice loop from elapsed time `e`, its start at clock `t`. */
  function Slices(forward: bool, d: int, e: nat, t: nat, sensor: Sensor): SliceEnd
    decreases d - e
  {
    if e >= d then Completed(e)
    else if forward && IsDanger(sensor(t + e)) then Interrupted(e)
    else Slices(forward, d, e + SAFETY_STEP_MS, t, sensor)
  }

  /** Number of reverse bursts the recovery loop issues from clock `t`. */
  function BackoffBursts(t: nat, sensor: Sensor, horizon: nat): nat
    requires ClearsBy(sensor, horizon)
    decreases horizon - t
  {
    if TooClose(sensor(t)) then 1 + BackoffBursts(t + BACKOFF_MS, sensor, horizon) else 0
  }

  /** Number of compensation bursts from compensated time `c` at clock `t`. */
  function CompensateBursts(c: int, debt: int, t: nat, sensor: Sensor): nat
    decreases debt - c
  {
    if c < debt && Clear(sensor(t)) then 1 + CompensateBursts(c + COMPENSATE_MS, debt, t + COMPENSATE_MS, sensor)
    else 0
  }

  /* ---------------- the executor's state, as functions ---------------- */

  /** The calls made so far, the clock, and `totalForwardDebtMs`. */
  datatype Run = Run(calls: seq<Call>, clock: nat, debt: int)

  function StopBothRun(s: Run, ip: string, wait: nat): Run
  {
    Run(s.calls + StopBothCalls(ip), s.clock + wait, s.debt)
  }

  function RotateRun(s: Run, ip: string): (r: Run)
    ensures r.debt == s.debt
  {
    Run(s.calls + RotateCalls(ip), s.clock + 600 + 80 + 10 + 120, s.debt)
  }

  /** `recoverFromDanger`. */
  function RecoverRun(s: Run, ip: string, sensor: Sensor, horizon: nat): (r: Run)
    requires ClearsBy(sensor, horizon)
    ensures r.debt == s.debt
  {
    var t := s.clock + 60;
    var n := BackoffBursts(t, sensor, horizon);
    Run(s.calls + StopBothCalls(ip) + ReverseCalls(ip, n) + StopBothCalls(ip),
        t + BACKOFF_MS * n + 120, s.debt)
  }

  /** `compensateFinalPosition`. */
  function CompensateRun(s: Run, ip: string, sensor: Sensor): (r: Run)
    ensures r.debt == 0
  {
    var n := CompensateBursts(0, s.debt, s.clock, sensor);
    Run(s.calls + ReverseCalls(ip, n) + StopBothCalls(ip), s.clock + COMPENSATE_MS * n + 120, 0)
  }

  /** `runMotionWithRecovery`. */
  function StepRun(s: Run, ip: string, cmd: RthMotionCommand, sensor: Sensor, horizon: nat): (r: Run)
    requires ClearsBy(sensor, horizon)
    ensures r.debt == s.debt || r.debt <= cmd.durationMs
  {
    var t := s.clock + 80;
    var calls := s.calls + StopBothCalls(ip) + MotionCalls(ip, cmd.motion);
    match Slices(IsForward(cmd.motion), cmd.durationMs, 0, t, sensor)
    case Completed(e) => Run(calls + StopBothCalls(ip), t + e + 120, s.debt)
    case Interrupted(e) => RecoverRun(Run(calls, t + e, cmd.durationMs - e), ip, sensor, horizon)
  }

  /** A step whose slice loop runs out after `e` ms: reset, drive, stop. */
  lemma StepCompleted(s: Run, ip: string, cmd: RthMotionCommand, sensor: Sensor, horizon: nat, e: nat)
    requires ClearsBy(sensor, horizon)
    requires Slices(IsForward(cmd.motion), cmd.durationMs, 0, s.clock + 80, sensor) == Completed(e)
    ensures StepRun(s, ip, cmd, sensor, horizon) ==
      Run(s.calls + StopBothCalls(ip) + MotionCalls(ip, cmd.motion) + StopBothCalls(ip), s.clock + 80 + e + 120, s.debt)
  {
  }

  /** A step interrupted after `e` ms: the debt is what was left, then recovery. */
  lemma StepInterrupted(s: Run, ip: string, cmd: RthMotionCommand, sensor: Sensor, horizon: nat, e: nat)
    requires ClearsBy(sensor, horizon)
    requires Slices(IsForward(cmd.motion), cmd.durationMs, 0, s.clock + 80, sensor) == Interrupted(e)
    ensures StepRun(s, ip, cmd, sensor, horizon) ==
      RecoverRun(Run(s.calls + StopBothCalls(ip) + MotionCalls(ip, cmd.motion), s.clock + 80 + e, cmd.durationMs - e),
                 ip, sensor, horizon)
  {
  }

  /** The steps of a path, one after the other. */
  function PathRun(s: Run, ip: string, path: seq<RthMotionCommand>, sensor: Sensor, horizon: nat): (r: Run)
    requires ClearsBy(sensor, horizon)
    decreases |path|
  {
    if |path| == 0 then s
    else PathRun(StepRun(s, ip, path[0], sensor, horizon), ip, path[1..], sensor, horizon)
  }

  /** The body of the job `execute` launches, after the debt reset. */
  function ExecuteRun(s: Run, ip: string, motions: seq<RthMotionCommand>, sensor: Sensor, horizon: nat): (r: Run)
    requires ClearsBy(sensor, horizon)
    ensures |motions| == 0 ==> r == s
    ensures |motions| > 0 ==> r.debt <= 0
  {
    if |motions| == 0 then s
    else
      var hasBackward := HasBackward(motions);
      var s0 := s.(debt := 0);
      var s1 := if hasBackward then s0 else RotateRun(s0, ip);
      var s2 := PathRun(s1, ip, RthPath(motions), sensor, horizon);
      var s3 := if s2.debt > 0 then CompensateRun(s2, ip, sensor) else s2;
      var s4 := if hasBackward then s3 else RotateRun(s3, ip);
      StopBothRun(s4, ip, 0)
  }

  /* ---------------- the executor ---------------- */

  class RthExecutor {
    var totalForwardDebtMs: int
    var clock: nat
    ghost var calls: seq<Call>

    ghost function State(): Run
      reads this
    {
      Run(calls, clock, totalForwardDebtMs)
    }

    constructor ()
      ensures State() == Run([], 0, 0)
    {
      totalForwardDebtMs := 0;
      clock := 0;
      calls := [];
    }

    method Delay(ms: nat)
      modifies this
      ensures State() == old(State()).(clock := old(clock) + ms)
    {
      clock := clock + ms;
    }

    /** `controlViewModel.stopBoth(ip)`. */
    method StopBoth(ip: string)
      modifies this
      ensures State() == old(State()).(calls := old(calls) + StopBothCalls(ip))
    {
      calls := calls + StopBothCalls(ip);
    }

    method Drive(ip: string, a: string, b: string)
      modifies this
      ensures State() == old(State()).(calls := old(calls) + DriveCalls(ip, a, b))
    {
      calls := calls + [Call(ip, "a", a)];
      calls := calls + [Call(ip, "b", b)];
    }

    method SendMotion(ip: string, motion: RobotMotion)
      modifies this
      ensures State() == old(State()).(calls := old(calls) + MotionCalls(ip, motion))
    {
      match motion
      case MAJU => Drive(ip, "maju", "maju");
      case MUNDUR => Drive(ip, "mundur", "mundur");
      case MAJU_BELOK_KANAN => Drive(ip, "maju", "stop");
      case MAJU_BELOK_KIRI => Drive(ip, "stop", "maju");
      case MUNDUR_BELOK_KIRI => Drive(ip, "mundur", "stop");
      case MUNDUR_BELOK_KANAN => Drive(ip, "stop", "mundur");
      case PUTAR_KANAN => Drive(ip, "maju", "mundur");
      case PUTAR_KIRI => Drive(ip, "mundur", "maju");
      case DIAM => StopBoth(ip);
    }

    method Rotate180(ip: string)
      modifies this
      ensures State() == RotateRun(old(State()), ip)
    {
      SendMotion(ip, PUTAR_KANAN);
      Delay(600);
      StopBoth(ip);
      Delay(80);
      SendMotion(ip, MAJU);
      Delay(10);
      StopBoth(ip);
      Delay(120);
    }

    method RecoverFromDanger(ip: string, sensor: Sensor, ghost horizon: nat)
      requires ClearsBy(sensor, horizon)
      modifies this
      ensures State() == RecoverRun(old(State()), ip, sensor, horizon)
    {
      StopBoth(ip);
      Delay(60);
      ghost var t := clock;
      ghost var before := calls;
      ghost var n: nat := 0;
      while TooClose(sensor(clock))
        invariant clock == t + BACKOFF_MS * n
        invariant BackoffBursts(t, sensor, horizon) == n + BackoffBursts(clock, sensor, horizon)
        invariant calls == before + ReverseCalls(ip, n)
        invariant totalForwardDebtMs == old(totalForwardDebtMs)
        decreases horizon - clock
      {
        Drive(ip, "mundur", "mundur");
        Delay(BACKOFF_MS);
        ReverseCallsSnoc(ip, n);
        n := n + 1;
      }
      StopBoth(ip);
      Delay(120);
    }

    method CompensateFinalPosition(ip: string, sensor: Sensor)
      modifies this
      ensures State() == CompensateRun(old(State()), ip, sensor)
    {
      var compensated := 0;
      ghost var t := clock;
      ghost var before := calls;
      ghost var n: nat := 0;
      while compensated < totalForwardDebtMs && Clear(sensor(clock))
        invariant compensated == COMPENSATE_MS * n && clock == t + COMPENSATE_MS * n
        invariant CompensateBursts(0, old(totalForwardDebtMs), t, sensor)
          == n + CompensateBursts(compensated, totalForwardDebtMs, clock, sensor)
        invariant calls == before + ReverseCalls(ip, n)
        invariant totalForwardDebtMs == old(totalForwardDebtMs)
        decreases totalForwardDebtMs - compensated
      {
        Drive(ip, "mundur", "mundur");
        Delay(COMPENSATE_MS);
        compensated := compensated + COMPENSATE_MS;
        ReverseCallsSnoc(ip, n);
        n := n + 1;
      }
      StopBoth(ip);
      Delay(120);
      totalForwardDebtMs := 0;
    }

    method RunMotionWithRecovery(ip: string, motion: RobotMotion, durationMs: int,
                                 sensor: Sensor, ghost horizon: nat)
      requires ClearsBy(sensor, horizon)
      modifies this
      ensures State() == StepRun(old(State()), ip, RthMotionCommand(motion, durationMs), sensor, horizon)
    {
      ghost var s0 := State();
      StopBoth(ip);
      Delay(80);
      SendMotion(ip, motion);
      ghost var driving := s0.calls + StopBothCalls(ip) + MotionCalls(ip, motion);
      var interrupted, elapsed := WatchSlices(IsForward(motion), durationMs, sensor);
      if interrupted {
        StepInterrupted(s0, ip, RthMotionCommand(motion, durationMs), sensor, horizon, elapsed);
        totalForwardDebtMs := durationMs - elapsed;
        assert State() == Run(driving, s0.clock + 80 + elapsed, durationMs - elapsed);
        RecoverFromDanger(ip, sensor, horizon);
        assert State() == StepRun(s0, ip, RthMotionCommand(motion, durationMs), sensor, horizon);
      } else {
        StepCompleted(s0, ip, RthMotionCommand(motion, durationMs), sensor, horizon, elapsed);
        StopBoth(ip);
        Delay(120);
        assert State() == Run(driving + StopBothCalls(ip), s0.clock + 80 + elapsed + 120, s0.debt);
        assert State() == StepRun(s0, ip, RthMotionCommand(motion, durationMs), sensor, horizon);
      }
    }

    /**
     * The slice loop of `runMotionWithRecovery`: sleeps SAFETY_STEP_MS at a
     * time until `durationMs` has passed or, while driving forward, the sensor
     * reads DANGER; only the clock moves.
     */
    method WatchSlices(forward: bool, durationMs: int, sensor: Sensor) returns (interrupted: bool, elapsed: nat)
      modifies this
      ensures Slices(forward, durationMs, 0, old(clock), sensor)
        == (if interrupted then Interrupted(elapsed) else Completed(elapsed))
      ensures interrupted ==> elapsed < durationMs
      ensures State() == old(State()).(clock := old(clock) + elapsed)
    {
      elapsed := 0;
      while elapsed < durationMs
        invariant clock == old(clock) + elapsed
        invariant Slices(forward, durationMs, 0, old(clock), sensor)
          == Slices(forward, durationMs, elapsed, old(clock), sensor)
        invariant calls == old(calls) && totalForwardDebtMs == old(totalForwardDebtMs)
        decreases durationMs - elapsed
      {
        if forward && IsDanger(sensor(clock)) {
          return true, elapsed;
        }
        Delay(SAFETY_STEP_MS);
        elapsed := elapsed + SAFETY_STEP_MS;
      }
      interrupted := false;
    }

    method ExecuteSingleStep(ip: string, cmd: RthMotionCommand, sensor: Sensor, ghost horizon: nat)
      requires ClearsBy(sensor, horizon)
      modifies this
      ensures State() == StepRun(old(State()), ip, cmd, sensor, horizon)
    {
      RunMotionWithRecovery(ip, cmd.motion, cmd.durationMs, sensor, horizon);
    }

    method Execute(ip: string, motions: seq<RthMotionCommand>, sensor: Sensor, ghost horizon: nat)
      requires ClearsBy(sensor, horizon)
      modifies this
      ensures |motions| == 0 ==> State() == old(State())
      ensures |motions| > 0 ==> State() == ExecuteRun(old(State()), ip, motions, sensor, horizon)
    {
      if |motions| == 0 {
        return;
      }
      totalForwardDebtMs := 0;
      var hasBackward := exists i | 0 <= i < |motions| :: IsBackward(motions[i].motion);
      var rthPath := if !hasBackward then BuildRthPath(motions) else motions;
      if !hasBackward {
        Rotate180(ip);
      }
      ghost var s1 := State();
      var i := 0;
      while i < |rthPath|
        invariant 0 <= i <= |rthPath|
        invariant PathRun(s1, ip, rthPath, sensor, horizon) == PathRun(State(), ip, rthPath[i..], sensor, horizon)
      {
        assert rthPath[i..][1..] == rthPath[i + 1..];
        RunMotionWithRecovery(ip, rthPath[i].motion, rthPath[i].durationMs, sensor, horizon);
        i := i + 1;
      }
      if totalForwardDebtMs > 0 {
        CompensateFinalPosition(ip, sensor);
      }
      if !hasBackward {
        Rotate180(ip);
      }
      StopBoth(ip);
    }

    /** `stop()`: the running job is cancelled (not modelled) and both
        tracks are stopped on an empty host. */
    method Stop()
      modifies this
      ensures State() == old(State()).(calls := old(calls) + StopBothCalls(""))
    {
      StopBoth("");
    }
  }

  lemma ReverseCallsSnoc(ip: string, n: nat)
    ensures ReverseCalls(ip, n + 1) == ReverseCalls(ip, n) + DriveCalls(ip, "mundur", "mundur")
  {
    if n > 0 {
      ReverseCallsSnoc(ip, n - 1);
    }
  }
}
