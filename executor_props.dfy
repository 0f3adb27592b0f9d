/** Properties of the return-to-home executor's model. */
module ExecutorProps {
  import opened Motion
  import opened Options
  import opened Executor
  import opened Seqs

  /** A step that is not forward is never interrupted: its slice loop runs
      to the first multiple of 20 ms at or past the duration. */
  lemma {:induction false} NonForwardRunsToCompletion(d: int, e: nat, t: nat, sensor: Sensor)
    ensures Slices(false, d, e, t, sensor) ==
      Completed(if e >= d then e else e + SAFETY_STEP_MS * ((d - e + 19) / 20))
    decreases d - e
  {
    if e < d {
      NonForwardRunsToCompletion(d, e + SAFETY_STEP_MS, t, sensor);
    }
  }

  /** The elapsed time after `j` slices from `e0`. */
  function SliceMark(e0: nat, j: nat): nat
  {
    e0 + SAFETY_STEP_MS * j
  }

  /** A step is interrupted only when it is forward, at a slice boundary
      before its end where the sensor reports danger, danger having been
      absent at every earlier slice boundary. */
  lemma {:induction false} InterruptFacts(forward: bool, d: int, e0: nat, t: nat, sensor: Sensor)
    ensures Slices(forward, d, e0, t, sensor).Interrupted? ==>
      var e := Slices(forward, d, e0, t, sensor).elapsed;
      forward && e0 <= e < d && (e - e0) % SAFETY_STEP_MS == 0 && IsDanger(sensor(t + e)) &&
      forall j: nat :: SliceMark(e0, j) < e ==> !IsDanger(sensor(t + SliceMark(e0, j)))
    ensures Slices(forward, d, e0, t, sensor).Completed? ==>
      var e := Slices(forward, d, e0, t, sensor).elapsed;
      e >= d && e >= e0 && (e - e0) % SAFETY_STEP_MS == 0 &&
      forall j: nat :: forward && SliceMark(e0, j) < e ==> !IsDanger(sensor(t + SliceMark(e0, j)))
    decreases d - e0
  {
    if e0 < d && !(forward && IsDanger(sensor(t + e0))) {
      var e1 := e0 + SAFETY_STEP_MS;
      InterruptFacts(forward, d, e1, t, sensor);
      var e := Slices(forward, d, e0, t, sensor).elapsed;
      forall j: nat | forward && SliceMark(e0, j) < e
        ensures !IsDanger(sensor(t + SliceMark(e0, j)))
      {
        if j > 0 {
          assert SliceMark(e0, j) == SliceMark(e1, j - 1);
        }
      }
    }
  }

  /** With no danger anywhere, the slice loop always runs out. */
  lemma {:induction false} SafeSlicesComplete(forward: bool, d: int, e: nat, t: nat, sensor: Sensor)
    requires forall t': nat :: !IsDanger(sensor(t'))
    ensures Slices(forward, d, e, t, sensor).Completed?
    decreases d - e
  {
    if e < d {
      SafeSlicesComplete(forward, d, e + SAFETY_STEP_MS, t, sensor);
    }
  }

  /** The debt after a step: an interrupt at elapsed `e` overwrites it with
      `d - e`, which lies in (0, d]; otherwise it is kept. */
  lemma StepDebt(s: Run, ip: string, cmd: RthMotionCommand, sensor: Sensor, horizon: nat)
    requires ClearsBy(sensor, horizon)
    ensures var sl := Slices(IsForward(cmd.motion), cmd.durationMs, 0, s.clock + 80, sensor);
      var r := StepRun(s, ip, cmd, sensor, horizon);
      (sl.Interrupted? ==> r.debt == cmd.durationMs - sl.elapsed && 0 < r.debt <= cmd.durationMs &&
                           IsForward(cmd.motion)) &&
      (sl.Completed? ==> r.debt == s.debt)
  {
    InterruptFacts(IsForward(cmd.motion), cmd.durationMs, 0, s.clock + 80, sensor);
  }

  /** The compensation loop issues at most ceil(debt / 50) bursts. */
  lemma {:induction false} CompensateBound(c: int, debt: int, t: nat, sensor: Sensor)
    ensures var n := CompensateBursts(c, debt, t, sensor);
      (c >= debt ==> n == 0) && (c < debt ==> COMPENSATE_MS * n < debt - c + COMPENSATE_MS)
    decreases debt - c
  {
    if c < debt && Clear(sensor(t)) {
      CompensateBound(c + COMPENSATE_MS, debt, t + COMPENSATE_MS, sensor);
    }
  }

  /** The recovery loop backs off at every 60 ms mark while the reading is at
      most 10 cm, and stops at the first mark where it is not. */
  lemma {:induction false} BackoffFacts(t: nat, sensor: Sensor, horizon: nat)
    requires ClearsBy(sensor, horizon)
    ensures var n := BackoffBursts(t, sensor, horizon);
      !TooClose(sensor(t + BACKOFF_MS * n)) &&
      forall k: nat :: k < n ==> TooClose(sensor(t + BACKOFF_MS * k))
    decreases horizon - t
  {
    if TooClose(sensor(t)) {
      BackoffFacts(t + BACKOFF_MS, sensor, horizon);
      var n := BackoffBursts(t, sensor, horizon);
      forall k: nat | k < n ensures TooClose(sensor(t + BACKOFF_MS * k)) {
        if k > 0 {
          assert t + BACKOFF_MS * k == (t + BACKOFF_MS) + BACKOFF_MS * (k - 1);
        }
      }
    }
  }

  /** Reverse bursts only ever send "mundur". */
  lemma {:induction false} ReverseCallsOnlyReverse(ip: string, n: nat)
    ensures forall q :: q in ReverseCalls(ip, n) ==> q.command == "mundur"
    decreases n
  {
    if n > 0 {
      ReverseCallsOnlyReverse(ip, n - 1);
    }
  }

  /** Backing off after an interrupt and compensating the debt only ever
      reverse or stop the tracks: neither sends "maju". */
  lemma RecoveryNeverForward(s: Run, ip: string, sensor: Sensor, horizon: nat)
    requires ClearsBy(sensor, horizon)
    ensures var r := RecoverRun(s, ip, sensor, horizon);
      forall q :: q in r.calls[|s.calls|..] ==> q.command in {"stop", "mundur"}
    ensures var r := CompensateRun(s, ip, sensor);
      forall q :: q in r.calls[|s.calls|..] ==> q.command in {"stop", "mundur"}
  {
    var n := BackoffBursts(s.clock + 60, sensor, horizon);
    ReverseCallsOnlyReverse(ip, n);
    var r := RecoverRun(s, ip, sensor, horizon);
    assert r.calls[|s.calls|..] == StopBothCalls(ip) + ReverseCalls(ip, n) + StopBothCalls(ip);
    var m := CompensateBursts(0, s.debt, s.clock, sensor);
    ReverseCallsOnlyReverse(ip, m);
    var c := CompensateRun(s, ip, sensor);
    assert c.calls[|s.calls|..] == ReverseCalls(ip, m) + StopBothCalls(ip);
  }

  /** The calls of one uninterrupted step: reset, drive, stop. */
  function PlainCalls(ip: string, path: seq<RthMotionCommand>): seq<Call>
  {
    if |path| == 0 then []
    else StopBothCalls(ip) + MotionCalls(ip, path[0].motion) + StopBothCalls(ip) + PlainCalls(ip, path[1..])
  }

  /** A step whose slice loop runs out: reset, drive, stop, debt kept. */
  lemma CompletedStep(s: Run, ip: string, cmd: RthMotionCommand, sensor: Sensor, horizon: nat)
    requires ClearsBy(sensor, horizon)
    requires Slices(IsForward(cmd.motion), cmd.durationMs, 0, s.clock + 80, sensor).Completed?
    ensures StepRun(s, ip, cmd, sensor, horizon).calls ==
      s.calls + (StopBothCalls(ip) + MotionCalls(ip, cmd.motion) + StopBothCalls(ip))
    ensures StepRun(s, ip, cmd, sensor, horizon).debt == s.debt
  {
  }

  /** With no danger anywhere, every step runs to completion: the calls are
      reset, drive and stop per step. */
  lemma {:induction false} SafePathRun(s: Run, ip: string, path: seq<RthMotionCommand>, sensor: Sensor, horizon: nat)
    requires ClearsBy(sensor, horizon)
    requires forall t: nat :: !IsDanger(sensor(t))
    ensures PathRun(s, ip, path, sensor, horizon).calls == s.calls + PlainCalls(ip, path)
    decreases |path|
  {
    if |path| > 0 {
      var cmd := path[0];
      SafeSlicesComplete(IsForward(cmd.motion), cmd.durationMs, 0, s.clock + 80, sensor);
      CompletedStep(s, ip, cmd, sensor, horizon);
      var s' := StepRun(s, ip, cmd, sensor, horizon);
      SafePathRun(s', ip, path[1..], sensor, horizon);
      assert PathRun(s, ip, path, sensor, horizon) == PathRun(s', ip, path[1..], sensor, horizon);
      var step := StopBothCalls(ip) + MotionCalls(ip, cmd.motion) + StopBothCalls(ip);
      assert PlainCalls(ip, path) == step + PlainCalls(ip, path[1..]);
      AppendAssoc(s.calls, step, PlainCalls(ip, path[1..]));
    }
  }

  /** With no danger anywhere the debt is untouched. */
  lemma {:induction false} SafePathKeepsDebt(s: Run, ip: string, path: seq<RthMotionCommand>, sensor: Sensor, horizon: nat)
    requires ClearsBy(sensor, horizon)
    requires forall t: nat :: !IsDanger(sensor(t))
    ensures PathRun(s, ip, path, sensor, horizon).debt == s.debt
    decreases |path|
  {
    if |path| > 0 {
      var cmd := path[0];
      SafeSlicesComplete(IsForward(cmd.motion), cmd.durationMs, 0, s.clock + 80, sensor);
      CompletedStep(s, ip, cmd, sensor, horizon);
      var s' := StepRun(s, ip, cmd, sensor, horizon);
      SafePathKeepsDebt(s', ip, path[1..], sensor, horizon);
      assert PathRun(s, ip, path, sensor, horizon) == PathRun(s', ip, path[1..], sensor, horizon);
    }
  }

  /** With no danger anywhere and no backward motion in the recording,
      `execute` rotates, plays the mirrored reversed path step by step,
      rotates again and stops: no recovery and no compensation. */
  lemma SafeExecuteWithoutBackward(s: Run, ip: string, motions: seq<RthMotionCommand>, sensor: Sensor, horizon: nat)
    requires ClearsBy(sensor, horizon)
    requires forall t: nat :: !IsDanger(sensor(t))
    requires |motions| > 0 && !HasBackward(motions)
    ensures ExecuteRun(s, ip, motions, sensor, horizon).calls ==
      s.calls + RotateCalls(ip) + PlainCalls(ip, BuildRthPath(motions)) + RotateCalls(ip) + StopBothCalls(ip)
    ensures ExecuteRun(s, ip, motions, sensor, horizon).debt == 0
  {
    SafePathRun(RotateRun(s.(debt := 0), ip), ip, BuildRthPath(motions), sensor, horizon);
    SafePathKeepsDebt(RotateRun(s.(debt := 0), ip), ip, BuildRthPath(motions), sensor, horizon);
  }

  /** The shape of the calls of one step: reset, drive, ..., stop. */
  lemma StepShape(s: Run, ip: string, cmd: RthMotionCommand, sensor: Sensor, horizon: nat)
    requires ClearsBy(sensor, horizon)
    ensures var c := StepRun(s, ip, cmd, sensor, horizon).calls;
      s.calls + StopBothCalls(ip) + MotionCalls(ip, cmd.motion) <= c &&
      |c| >= |s.calls| + 6 && c[|c| - 2..] == StopBothCalls(ip)
    ensures s.debt >= 0 ==> StepRun(s, ip, cmd, sensor, horizon).debt >= 0
  {
    StepDebt(s, ip, cmd, sensor, horizon);
  }

  /** The calls of a non-empty path start with the first step's reset and
      drive and end with a stop; the debt stays non-negative. */
  lemma {:induction false} PathShape(s: Run, ip: string, path: seq<RthMotionCommand>, sensor: Sensor, horizon: nat)
    requires ClearsBy(sensor, horizon)
    ensures s.calls <= PathRun(s, ip, path, sensor, horizon).calls
    ensures |path| > 0 ==>
      var c := PathRun(s, ip, path, sensor, horizon).calls;
      s.calls + StopBothCalls(ip) + MotionCalls(ip, path[0].motion) <= c &&
      |c| >= |s.calls| + 6 && c[|c| - 2..] == StopBothCalls(ip)
    ensures s.debt >= 0 ==> PathRun(s, ip, path, sensor, horizon).debt >= 0
    decreases |path|
  {
    if |path| > 0 {
      var s' := StepRun(s, ip, path[0], sensor, horizon);
      StepShape(s, ip, path[0], sensor, horizon);
      PathShape(s', ip, path[1..], sensor, horizon);
    }
  }

  /** The compensation phase appends calls ending with a stop, or nothing. */
  lemma CompensatePhase(s2: Run, ip: string, sensor: Sensor)
    requires |s2.calls| >= 2 && s2.calls[|s2.calls| - 2..] == StopBothCalls(ip)
    ensures var s3 := if s2.debt > 0 then CompensateRun(s2, ip, sensor) else s2;
      s2.calls <= s3.calls && s3.calls[|s3.calls| - 2..] == StopBothCalls(ip) &&
      (s2.debt > 0 ==> s3.debt == 0) && (s2.debt <= 0 ==> s3 == s2)
  {
  }

  /** The phases of `execute` on a non-empty recording, by name. */
  lemma ExecutePhases(s: Run, ip: string, motions: seq<RthMotionCommand>, sensor: Sensor, horizon: nat)
    returns (s1: Run, s2: Run, s3: Run)
    requires ClearsBy(sensor, horizon)
    requires |motions| > 0
    ensures s1 == (if HasBackward(motions) then s.(debt := 0) else RotateRun(s.(debt := 0), ip))
    ensures s2 == PathRun(s1, ip, RthPath(motions), sensor, horizon)
    ensures s3 == (if s2.debt > 0 then CompensateRun(s2, ip, sensor) else s2)
    ensures ExecuteRun(s, ip, motions, sensor, horizon).calls ==
      (if HasBackward(motions) then s3.calls else s3.calls + RotateCalls(ip)) + StopBothCalls(ip)
    ensures ExecuteRun(s, ip, motions, sensor, horizon).debt == s3.debt
  {
    s1 := if HasBackward(motions) then s.(debt := 0) else RotateRun(s.(debt := 0), ip);
    s2 := PathRun(s1, ip, RthPath(motions), sensor, horizon);
    s3 := if s2.debt > 0 then CompensateRun(s2, ip, sensor) else s2;
  }

  /** The call sequence of `execute` when the recording holds a backward
      motion: the path run straight after the old calls, then at most a
      compensation, then a final stop. */
  lemma BackwardCallShape(pre: seq<Call>, head: seq<Call>, path: seq<Call>, comp: seq<Call>, ip: string)
    requires |head| == 4 && pre + head <= path
    requires |path| >= |pre| + 6 && path[|path| - 2..] == StopBothCalls(ip)
    requires path <= comp && comp[|comp| - 2..] == StopBothCalls(ip)
    ensures var c := comp + StopBothCalls(ip);
      pre <= c && |c| >= |pre| + 8 && c[|c| - 2..] == StopBothCalls(ip) &&
      c[|pre|..|pre| + 4] == head && c[|c| - 4..] == StopBothCalls(ip) + StopBothCalls(ip)
  {
    var c := comp + StopBothCalls(ip);
    assert c[|pre|..|pre| + 4] == comp[|pre|..|pre| + 4] == path[|pre|..|pre| + 4];
    assert c[|c| - 4..] == comp[|comp| - 2..] + StopBothCalls(ip);
  }

  /** The call sequence of `execute` when the recording holds no backward
      motion: a rotation, the path run, at most a compensation, a second
      rotation and a final stop. */
  lemma RotatingCallShape(pre: seq<Call>, path: seq<Call>, comp: seq<Call>, ip: string)
    requires pre + RotateCalls(ip) <= path && |path| >= |pre| + 8 + 6
    requires path <= comp && |comp| >= 2 && comp[|comp| - 2..] == StopBothCalls(ip)
    ensures var c := comp + RotateCalls(ip) + StopBothCalls(ip);
      pre <= c && |c| >= |pre| + 18 && c[|c| - 2..] == StopBothCalls(ip) &&
      c[|pre|..|pre| + 8] == RotateCalls(ip) &&
      c[|c| - 10..] == RotateCalls(ip) + StopBothCalls(ip)
  {
    var c := comp + RotateCalls(ip) + StopBothCalls(ip);
    assert |RotateCalls(ip)| == 8;
    assert c[|pre|..|pre| + 8] == comp[|pre|..|pre| + 8] == path[|pre|..|pre| + 8];
    assert c[|c| - 10..] == RotateCalls(ip) + StopBothCalls(ip);
  }

  /** The calls after position `n` are bracketed as `execute` brackets
      them: they end with `stopBoth`; without a backward motion they open
      with a rotation and end with a rotation and a stop; with one they open
      with the first step's reset and drive and end with two stops. */
  ghost predicate Bracketed(c: seq<Call>, n: nat, ip: string, backward: bool, first: seq<Call>)
  {
    |c| >= n + 8 &&
    c[|c| - 2..] == StopBothCalls(ip) &&
    (!backward ==>
       c[n..n + 8] == RotateCalls(ip) && |c| >= n + 18 &&
       c[|c| - 10..] == RotateCalls(ip) + StopBothCalls(ip)) &&
    (backward ==>
       c[n..n + 4] == StopBothCalls(ip) + first &&
       c[|c| - 4..] == StopBothCalls(ip) + StopBothCalls(ip))
  }

  /** Every `execute` of a non-empty recording ends with `stopBoth(ip)` and
      with no debt left. Without a backward motion it opens and closes with a
      rotation; with one it opens with the first step's reset and drive
      instead, and its last calls are two stops. */
  lemma ExecuteBracketing(s: Run, ip: string, motions: seq<RthMotionCommand>, sensor: Sensor, horizon: nat)
    requires ClearsBy(sensor, horizon)
    requires |motions| > 0
    ensures s.calls <= ExecuteRun(s, ip, motions, sensor, horizon).calls
    ensures Bracketed(ExecuteRun(s, ip, motions, sensor, horizon).calls, |s.calls|, ip,
                      HasBackward(motions), MotionCalls(ip, motions[0].motion))
    ensures ExecuteRun(s, ip, motions, sensor, horizon).debt == 0
  {
    var path := RthPath(motions);
    var s1, s2, s3 := ExecutePhases(s, ip, motions, sensor, horizon);
    PathShape(s1, ip, path, sensor, horizon);
    CompensatePhase(s2, ip, sensor);
    if HasBackward(motions) {
      assert path[0] == motions[0];
    }
    BracketShape(s.calls, s1.calls, s2.calls, s3.calls, ExecuteRun(s, ip, motions, sensor, horizon).calls,
                 ip, HasBackward(motions), MotionCalls(ip, path[0].motion), MotionCalls(ip, motions[0].motion));
  }

  /** The two call shapes of `execute`, on the call sequences of its phases:
      `head` after the optional rotation, `path` after the path run and
      `comp` after the optional compensation. */
  lemma BracketShape(pre: seq<Call>, head: seq<Call>, path: seq<Call>, comp: seq<Call>, c: seq<Call>,
                     ip: string, backward: bool, drive: seq<Call>, first: seq<Call>)
    requires head == if backward then pre else pre + RotateCalls(ip)
    requires backward ==> drive == first
    requires |drive| == 2
    requires head + StopBothCalls(ip) + drive <= path && |path| >= |head| + 6
    requires path[|path| - 2..] == StopBothCalls(ip)
    requires path <= comp && comp[|comp| - 2..] == StopBothCalls(ip)
    requires c == (if backward then comp else comp + RotateCalls(ip)) + StopBothCalls(ip)
    ensures pre <= c && Bracketed(c, |pre|, ip, backward, first)
  {
    if backward {
      BackwardCallShape(pre, StopBothCalls(ip) + drive, path, comp, ip);
    } else {
      assert |RotateCalls(ip)| == 8;
      assert pre + RotateCalls(ip) <= path by {
        assert head <= head + StopBothCalls(ip) + drive;
      }
      RotatingCallShape(pre, path, comp, ip);
    }
  }

  /** `rotate180` runs first exactly when the recording has no backward
      motion: the first call of `execute` drives track A forward iff so. */
  lemma RotationIffNoBackward(s: Run, ip: string, motions: seq<RthMotionCommand>, sensor: Sensor, horizon: nat)
    requires ClearsBy(sensor, horizon)
    requires |motions| > 0
    ensures var c := ExecuteRun(s, ip, motions, sensor, horizon).calls;
      |c| > |s.calls| && (c[|s.calls|] == Call(ip, "a", "maju") <==> !HasBackward(motions))
  {
    ExecuteBracketing(s, ip, motions, sensor, horizon);
    FirstCallOfShape(ExecuteRun(s, ip, motions, sensor, horizon).calls, |s.calls|, ip,
                     HasBackward(motions), MotionCalls(ip, motions[0].motion));
  }

  /** Which call opens a bracketed call sequence. */
  lemma FirstCallOfShape(c: seq<Call>, n: nat, ip: string, backward: bool, drive: seq<Call>)
    requires |c| >= n + 8
    requires !backward ==> c[n..n + 8] == RotateCalls(ip)
    requires backward ==> c[n..n + 4] == StopBothCalls(ip) + drive
    ensures c[n] == Call(ip, "a", "maju") <==> !backward
  {
    if backward {
      assert c[n] == c[n..n + 4][0];
    } else {
      assert c[n] == c[n..n + 8][0];
      assert RotateCalls(ip)[0] == MotionCalls(ip, PUTAR_KANAN)[0];
    }
  }

  /** The example of a recording without reverse: forward 1000 ms then pivot
      right 300 ms returns as pivot left 300 ms then forward 1000 ms. */
  lemma ReturnPathExample()
    ensures BuildRthPath([RthMotionCommand(MAJU, 1000), RthMotionCommand(PUTAR_KANAN, 300)])
      == [RthMotionCommand(PUTAR_KIRI, 300), RthMotionCommand(MAJU, 1000)]
  {
  }
}
