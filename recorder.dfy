/** The motion recorder: a state machine that turns per-track press and
    release events into a list of timed motion segments. The clock reading
    the source takes inside each call is the `now` parameter. */
module Recorder {
  import opened Motion
  import opened Options

  /** Declared by the recorder but never read: no segment is filtered. */
  const MOTION_MIN_DURATION_MS: int := 120

  /** The fixed lookup from the two track actions to a motion class. */
  function Classify(a: string, b: string): (m: RobotMotion)
    ensures m != DIAM ==> Tracks(m) == (a, b)
    ensures m == DIAM ==> forall x :: Tracks(x) == (a, b) ==> x == DIAM
  {
    if a == "maju" && b == "maju" then MAJU
    else if a == "mundur" && b == "mundur" then MUNDUR
    else if a == "maju" && b == "mundur" then PUTAR_KANAN
    else if a == "mundur" && b == "maju" then PUTAR_KIRI
    else if a == "maju" && b == "stop" then MAJU_BELOK_KANAN
    else if b == "maju" && a == "stop" then MAJU_BELOK_KIRI
    else if a == "mundur" && b == "stop" then MUNDUR_BELOK_KIRI
    else if b == "mundur" && a == "stop" then MUNDUR_BELOK_KANAN
    else DIAM
  }

  /** Driving the tracks of a motion and classifying them gives the motion back. */
  lemma ClassifyTracks(m: RobotMotion)
    ensures Classify(Tracks(m).0, Tracks(m).1) == m
  {
  }

  /** The recorder's fields, as one value. */
  datatype RecState = RecState(
    motionLog: seq<RthMotionCommand>,
    isRecording: bool,
    isStopping: bool,
    lastMotion: RobotMotion,
    motionStartTime: int,
    motorA: string,
    motorB: string,
    lastChangedMotor: Option<string>)

  /** No committed segment is a DIAM segment. */
  ghost predicate NoIdleSegments(log: seq<RthMotionCommand>)
  {
    forall i :: 0 <= i < |log| ==> log[i].motion != DIAM
  }

  /** `closeMotion`: commits the open motion, if any, with its elapsed time. */
  function Close(s: RecState, now: int): (r: RecState)
    ensures s.motionLog <= r.motionLog
    ensures |r.motionLog| == |s.motionLog| + (if s.lastMotion == DIAM then 0 else 1)
    ensures s.lastMotion != DIAM ==>
      r.motionLog[|s.motionLog|] == RthMotionCommand(s.lastMotion, now - s.motionStartTime)
    ensures r.(motionLog := s.motionLog) == s
  {
    if s.lastMotion == DIAM then s
    else s.(motionLog := s.motionLog + [RthMotionCommand(s.lastMotion, now - s.motionStartTime)])
  }

  /** `updateMotion`: reclassifies the tracks and closes/opens motions on a change. */
  function Update(s: RecState, now: int): (r: RecState)
    ensures r.lastMotion == Classify(r.motorA, r.motorB)
    ensures r.motorA == s.motorA && r.motorB == s.motorB && r.isRecording == s.isRecording
    ensures s.motionLog <= r.motionLog && |r.motionLog| <= |s.motionLog| + 1
  {
    var m := Classify(s.motorA, s.motorB);
    if m == s.lastMotion then s
    else if m == DIAM then Close(s, now).(lastMotion := DIAM)
    else Close(s, now).(lastMotion := m, motionStartTime := now)
  }

  /** `onPress`: sets the named track to the action. */
  function Pressed(s: RecState, channel: string, action: string, now: int): (r: RecState)
    ensures !s.isRecording || s.isStopping ==> r == s
    ensures s.isRecording && !s.isStopping ==>
      r.motorA == (if channel == "a" then action else s.motorA) &&
      r.motorB == (if channel == "b" then action else s.motorB) &&
      r.lastMotion == Classify(r.motorA, r.motorB)
    ensures s.motionLog <= r.motionLog && |r.motionLog| <= |s.motionLog| + 1
  {
    if !s.isRecording || s.isStopping then s
    else
      Update(s.(lastChangedMotor := Some(channel),
                motorA := if channel == "a" then action else s.motorA,
                motorB := if channel == "b" then action else s.motorB), now)
  }

  /** `onRelease`: sets the named track to "stop"; the action is ignored. */
  function Released(s: RecState, channel: string, action: string, now: int): (r: RecState)
    ensures !s.isRecording || s.isStopping ==> r == s
    ensures s.isRecording && !s.isStopping ==>
      r.motorA == (if channel == "a" then "stop" else s.motorA) &&
      r.motorB == (if channel == "b" then "stop" else s.motorB) &&
      r.lastMotion == Classify(r.motorA, r.motorB)
    ensures s.motionLog <= r.motionLog && |r.motionLog| <= |s.motionLog| + 1
  {
    if !s.isRecording || s.isStopping then s
    else
      Update(s.(lastChangedMotor := Some(channel),
                motorA := if channel == "a" then "stop" else s.motorA,
                motorB := if channel == "b" then "stop" else s.motorB), now)
  }

  /** `startRecord`. */
  function Started(s: RecState): (r: RecState)
    ensures r.motionLog == [] && r.isRecording && !r.isStopping
    ensures r.lastMotion == Classify(r.motorA, r.motorB) == DIAM
    ensures r.motionStartTime == s.motionStartTime
  {
    s.(motionLog := [], isRecording := true, isStopping := false, lastMotion := DIAM,
       motorA := "stop", motorB := "stop", lastChangedMotor := None)
  }

  /** `stopRecord`: closes the open motion; `lastMotion` is left as it was. */
  function Stopped(s: RecState, now: int): (r: RecState)
    ensures !r.isRecording && !r.isStopping && r.lastMotion == s.lastMotion
    ensures s.motionLog <= r.motionLog
    ensures |r.motionLog| == |s.motionLog| + (if s.lastMotion == DIAM then 0 else 1)
    ensures s.lastMotion != DIAM ==>
      r.motionLog[|s.motionLog|] == RthMotionCommand(s.lastMotion, now - s.motionStartTime)
  {
    Close(s.(isStopping := true), now).(isRecording := false, isStopping := false)
  }

  /** `log'` keeps `log` and adds at most one segment, never a DIAM one. */
  ghost predicate GrowsByOneSegment(log: seq<RthMotionCommand>, log': seq<RthMotionCommand>)
  {
    NoIdleSegments(log') && log <= log' && |log'| <= |log| + 1
  }

  lemma CloseKeepsNoIdle(s: RecState, now: int)
    requires NoIdleSegments(s.motionLog)
    ensures GrowsByOneSegment(s.motionLog, Close(s, now).motionLog)
  {
    if s.lastMotion != DIAM {
      var log' := Close(s, now).motionLog;
      forall i | 0 <= i < |log'|
        ensures log'[i].motion != DIAM
      {
        if i < |s.motionLog| {
          assert log'[i] == s.motionLog[i];
        }
      }
    }
  }

  lemma UpdateKeepsNoIdle(s: RecState, now: int)
    requires NoIdleSegments(s.motionLog)
    ensures GrowsByOneSegment(s.motionLog, Update(s, now).motionLog)
  {
    CloseKeepsNoIdle(s, now);
  }

  /** Every transition appends at most one segment, never a DIAM one, and
      keeps the segments already committed. */
  lemma TransitionsAppendAtMostOne(s: RecState, channel: string, action: string, now: int)
    requires NoIdleSegments(s.motionLog)
    ensures GrowsByOneSegment(s.motionLog, Update(s, now).motionLog)
    ensures GrowsByOneSegment(s.motionLog, Pressed(s, channel, action, now).motionLog)
    ensures GrowsByOneSegment(s.motionLog, Released(s, channel, action, now).motionLog)
    ensures GrowsByOneSegment(s.motionLog, Stopped(s, now).motionLog)
    ensures NoIdleSegments(Started(s).motionLog)
  {
    UpdateKeepsNoIdle(s, now);
    if s.isRecording && !s.isStopping {
      UpdateKeepsNoIdle(s.(lastChangedMotor := Some(channel),
                           motorA := if channel == "a" then action else s.motorA,
                           motorB := if channel == "b" then action else s.motorB), now);
      UpdateKeepsNoIdle(s.(lastChangedMotor := Some(channel),
                           motorA := if channel == "a" then "stop" else s.motorA,
                           motorB := if channel == "b" then "stop" else s.motorB), now);
    }
    CloseKeepsNoIdle(s.(isStopping := true), now);
  }

  /** When the reclassified motion equals the open one, nothing changes. */
  lemma UpdateUnchangedMotion(s: RecState, now: int)
    requires Classify(s.motorA, s.motorB) == s.lastMotion
    ensures Update(s, now) == s
  {
  }

  /** Leaving a non-DIAM motion appends exactly that motion with its elapsed
      time; entering a non-DIAM motion restarts the clock. */
  lemma UpdateOnChange(s: RecState, now: int)
    requires Classify(s.motorA, s.motorB) != s.lastMotion
    ensures s.lastMotion != DIAM ==>
      Update(s, now).motionLog == s.motionLog + [RthMotionCommand(s.lastMotion, now - s.motionStartTime)]
    ensures s.lastMotion == DIAM ==> Update(s, now).motionLog == s.motionLog
    ensures Update(s, now).lastMotion == Classify(s.motorA, s.motorB)
    ensures Update(s, now).motionStartTime ==
      if Classify(s.motorA, s.motorB) == DIAM then s.motionStartTime else now
  {
  }

  /** Holding one button from `t1` to `t2` on an idle recording commits
      exactly one segment of `t2 - t1` ms, however short, and leaves the
      recorder idle again. */
  lemma {:induction false} PressReleaseCommitsOneSegment(
    s: RecState, channel: string, action: string, t1: int, t2: int)
    requires s.isRecording && !s.isStopping
    requires s.motorA == "stop" && s.motorB == "stop" && s.lastMotion == DIAM
    requires channel in {"a", "b"} && action in {"maju", "mundur"}
    ensures var m := Classify(if channel == "a" then action else "stop",
                              if channel == "b" then action else "stop");
      var r := Released(Pressed(s, channel, action, t1), channel, action, t2);
      m != DIAM &&
      r.motionLog == s.motionLog + [RthMotionCommand(m, t2 - t1)] &&
      r.motorA == "stop" && r.motorB == "stop" && r.lastMotion == DIAM
  {
  }

  /** `stopRecord` does not reset `lastMotion`: a second stop commits the
      same motion again. */
  lemma StopTwiceCommitsTwice(s: RecState, t1: int, t2: int)
    requires s.lastMotion != DIAM
    ensures Stopped(Stopped(s, t1), t2).motionLog ==
      s.motionLog + [RthMotionCommand(s.lastMotion, t1 - s.motionStartTime),
                     RthMotionCommand(s.lastMotion, t2 - s.motionStartTime)]
  {
  }

  class RthRecorder {
    var motionLog: seq<RthMotionCommand>
    var isRecording: bool
    var isStopping: bool
    var lastMotion: RobotMotion
    var motionStartTime: int
    var motorA: string
    var motorB: string
    var lastChangedMotor: Option<string>

    ghost function State(): RecState
      reads this
    {
      RecState(motionLog, isRecording, isStopping, lastMotion, motionStartTime,
               motorA, motorB, lastChangedMotor)
    }

    /** Between calls the recorder is never stopping and holds no DIAM segment. */
    ghost predicate Valid()
      reads this
    {
      !isStopping && NoIdleSegments(motionLog)
    }

    constructor ()
      ensures Valid()
      ensures State() == RecState([], false, false, DIAM, 0, "stop", "stop", None)
    {
      motionLog := [];
      isRecording := false;
      isStopping := false;
      lastMotion := DIAM;
      motionStartTime := 0;
      motorA := "stop";
      motorB := "stop";
      lastChangedMotor := None;
    }

    method StartRecord()
      modifies this
      ensures Valid()
      ensures State() == Started(old(State()))
      ensures motionLog == [] && isRecording && lastMotion == DIAM
      ensures motorA == "stop" && motorB == "stop"
    {
      motionLog := [];
      isRecording := true;
      isStopping := false;
      lastMotion := DIAM;
      motorA := "stop";
      motorB := "stop";
      lastChangedMotor := None;
    }

    method StopRecord(now: int)
      requires Valid()
      modifies this
      ensures Valid()
      ensures State() == Stopped(old(State()), now)
      ensures !isRecording && lastMotion == old(lastMotion)
    {
      isStopping := true;
      CloseMotion(now);
      isRecording := false;
      isStopping := false;
    }

    method IsRecording() returns (r: bool)
      ensures r == isRecording
    {
      r := isRecording;
    }

    method OnPress(channel: string, action: string, now: int)
      requires Valid()
      modifies this
      ensures Valid()
      ensures State() == Pressed(old(State()), channel, action, now)
      ensures !old(isRecording) ==> State() == old(State())
      ensures old(isRecording) ==>
        motorA == (if channel == "a" then action else old(motorA)) &&
        motorB == (if channel == "b" then action else old(motorB))
    {
      if !isRecording || isStopping {
        return;
      }
      lastChangedMotor := Some(channel);
      if channel == "a" {
        motorA := action;
      }
      if channel == "b" {
        motorB := action;
      }
      UpdateMotion(now);
    }

    method OnRelease(channel: string, action: string, now: int)
      requires Valid()
      modifies this
      ensures Valid()
      ensures State() == Released(old(State()), channel, action, now)
      ensures !old(isRecording) ==> State() == old(State())
      ensures old(isRecording) ==>
        motorA == (if channel == "a" then "stop" else old(motorA)) &&
        motorB == (if channel == "b" then "stop" else old(motorB))
    {
      if !isRecording || isStopping {
        return;
      }
      lastChangedMotor := Some(channel);
      if channel == "a" {
        motorA := "stop";
      }
      if channel == "b" {
        motorB := "stop";
      }
      UpdateMotion(now);
    }

    method UpdateMotion(now: int)
      requires NoIdleSegments(motionLog)
      modifies this
      ensures NoIdleSegments(motionLog)
      ensures State() == Update(old(State()), now)
    {
      var newMotion := Classify(motorA, motorB);
      if newMotion == lastMotion {
        return;
      }
      if newMotion == DIAM {
        CloseMotion(now);
        lastMotion := DIAM;
        return;
      }
      CloseMotion(now);
      lastMotion := newMotion;
      motionStartTime := now;
    }

    method CloseMotion(now: int)
      requires NoIdleSegments(motionLog)
      modifies this
      ensures NoIdleSegments(motionLog)
      ensures State() == Close(old(State()), now)
    {
      if lastMotion == DIAM {
        return;
      }
      var duration := now - motionStartTime;
      motionLog := motionLog + [RthMotionCommand(lastMotion, duration)];
    }

    method GetRecordedMotions() returns (r: seq<RthMotionCommand>)
      ensures r == motionLog
    {
      r := motionLog;
    }
  }
}
