/** The tank buttons: four hold-to-drive buttons, each naming one track and
    one direction. A press records the new track state and sends the action;
    the release records the track stopping and sends "stop". */
module TankControls {
  import opened Motion
  import opened Recorder
  import opened Dispatcher

  /** The only place the command strings of the buttons are spelled out. */
  datatype TankCommand = A_MAJU | A_MUNDUR | B_MAJU | B_MUNDUR

  function Channel(c: TankCommand): (ch: string)
    ensures ch == "a" || ch == "b"
  {
    match c
    case A_MAJU | A_MUNDUR => "a"
    case B_MAJU | B_MUNDUR => "b"
  }

  function Action(c: TankCommand): (act: string)
    ensures act == "maju" || act == "mundur"
  {
    match c
    case A_MAJU | B_MAJU => "maju"
    case A_MUNDUR | B_MUNDUR => "mundur"
  }

  /** The enum's entries, in declaration order. */
  const AllCommands: seq<TankCommand> := [A_MAJU, A_MUNDUR, B_MAJU, B_MUNDUR]

  /** The four buttons are exactly the four pairs of a track and a direction,
      each pair once. */
  lemma CommandsArePairs()
    ensures forall c: TankCommand :: c in AllCommands
    ensures forall c1: TankCommand, c2: TankCommand ::
      Channel(c1) == Channel(c2) && Action(c1) == Action(c2) ==> c1 == c2
    ensures (set c | c in AllCommands :: (Channel(c), Action(c)))
      == {("a", "maju"), ("a", "mundur"), ("b", "maju"), ("b", "mundur")}
  {
    forall c: TankCommand
      ensures c in AllCommands
    {
      match c
      case A_MAJU => assert AllCommands[0] == c;
      case A_MUNDUR => assert AllCommands[1] == c;
      case B_MAJU => assert AllCommands[2] == c;
      case B_MUNDUR => assert AllCommands[3] == c;
    }
    assert Channel(A_MAJU) == "a" && Action(A_MAJU) == "maju";
    assert Channel(A_MUNDUR) == "a" && Action(A_MUNDUR) == "mundur";
    assert Channel(B_MAJU) == "b" && Action(B_MAJU) == "maju";
    assert Channel(B_MUNDUR) == "b" && Action(B_MUNDUR) == "mundur";
  }

  /** One `executeTankCommand` call on the recorder state and the gate: the
      new recorder state, the new gate and the GETs fired. */
  function TankStep(rec: RecState, g: Gate, ip: string, c: TankCommand, pressed: bool, now: int)
    : (r: (RecState, Gate, seq<Get>))
    ensures r.1.isLocked == g.isLocked && r.1.blockForwardOnly == g.blockForwardOnly
    ensures r.1.blockForwardHard == g.blockForwardHard && r.1.slowMode == g.slowMode
    ensures rec.motionLog <= r.0.motionLog && |r.0.motionLog| <= |rec.motionLog| + 1
    ensures |r.2| <= 1
  {
    if pressed then
      var (g', out) := Send(g, ip, Channel(c), Action(c), now);
      (Pressed(rec, Channel(c), Action(c), now), g', out)
    else
      var (g', out) := Send(g, ip, Channel(c), "stop", now);
      (Released(rec, Channel(c), Action(c), now), g', out)
  }

  /** A step fires at most one GET, on the button's own track; a press sends
      the button's direction and a release only ever "stop". */
  lemma StepSendsOwnTrack(rec: RecState, g: Gate, ip: string, c: TankCommand, pressed: bool, now: int)
    ensures var out := TankStep(rec, g, ip, c, pressed, now).2;
      |out| <= 1 &&
      (forall q :: q in out ==> q.ip == ip && q.channel == Channel(c)) &&
      (forall q :: q in out ==> q.command == if pressed then Action(c) else "stop")
  {
  }

  /** A release is never held back by a lock flag: "stop" is only ever
      dropped by the debounce. */
  lemma ReleaseOnlyDebounced(rec: RecState, g: Gate, ip: string, c: TankCommand, now: int)
    ensures TankStep(rec, g, ip, c, false, now).2 == [] <==> Debounced(g, Channel(c), "stop", now)
  {
    StopPassesLocks(g, ip, Channel(c), now);
  }

  /** A step leaves the other track's motor as it was. */
  lemma StepKeepsOtherTrack(rec: RecState, g: Gate, ip: string, c: TankCommand, pressed: bool, now: int)
    ensures var r := TankStep(rec, g, ip, c, pressed, now).0;
      (Channel(c) == "a" ==> r.motorB == rec.motorB) &&
      (Channel(c) == "b" ==> r.motorA == rec.motorA)
  {
  }

  /** A press and its release on an idle recording commit exactly one
      segment, the motion of that track alone, lasting from press to release. */
  lemma HoldCommitsOneSegment(rec: RecState, g: Gate, ip: string, c: TankCommand, t1: int, t2: int)
    requires rec.isRecording && !rec.isStopping
    requires rec.motorA == "stop" && rec.motorB == "stop" && rec.lastMotion == DIAM
    ensures var (r1, g1, _) := TankStep(rec, g, ip, c, true, t1);
      var r2 := TankStep(r1, g1, ip, c, false, t2).0;
      r2.motionLog == rec.motionLog + [RthMotionCommand(HoldMotion(c), t2 - t1)] &&
      r2.motorA == "stop" && r2.motorB == "stop" && r2.lastMotion == DIAM
  {
    PressReleaseCommitsOneSegment(rec, Channel(c), Action(c), t1, t2);
  }

  /** The motion a single held button drives. */
  function HoldMotion(c: TankCommand): (m: RobotMotion)
    ensures m != DIAM && !IsPivot(m)
    ensures IsForward(m) <==> Action(c) == "maju"
    ensures Tracks(m) == (if Channel(c) == "a" then Action(c) else "stop",
                          if Channel(c) == "b" then Action(c) else "stop")
  {
    match c
    case A_MAJU => MAJU_BELOK_KANAN
    case A_MUNDUR => MUNDUR_BELOK_KIRI
    case B_MAJU => MAJU_BELOK_KIRI
    case B_MUNDUR => MUNDUR_BELOK_KANAN
  }

  /** `executeTankCommand`: the recorder first, then the dispatcher. */
  method ExecuteTankCommand(vm: ControlViewModel, ip: string, c: TankCommand, pressed: bool, now: int)
    requires vm.Valid()
    modifies vm, vm.rthRecorder
    ensures vm.Valid()
    ensures (vm.rthRecorder.State(), vm.GateState(), vm.sent) ==
      var (r, g, out) := TankStep(old(vm.rthRecorder.State()), old(vm.GateState()), ip, c, pressed, now);
      (r, g, old(vm.sent) + out)
    ensures vm.isDevMode == old(vm.isDevMode)
  {
    if pressed {
      vm.rthRecorder.OnPress(Channel(c), Action(c), now);
      vm.SendCommandSmooth(ip, Channel(c), Action(c), now);
    } else {
      vm.rthRecorder.OnRelease(Channel(c), Action(c), now);
      vm.SendCommandSmooth(ip, Channel(c), "stop", now);
    }
  }

  /** `HoldableIconButton` around one tank button: the press handler runs,
      and the release handler runs exactly once afterwards, in `finally`. */
  method HoldButton(vm: ControlViewModel, ip: string, c: TankCommand, pressedAt: int, releasedAt: int)
    requires vm.Valid()
    modifies vm, vm.rthRecorder
    ensures vm.Valid()
    ensures var (r1, g1, out1) := TankStep(old(vm.rthRecorder.State()), old(vm.GateState()), ip, c, true, pressedAt);
      var (r2, g2, out2) := TankStep(r1, g1, ip, c, false, releasedAt);
      vm.rthRecorder.State() == r2 && vm.GateState() == g2 && vm.sent == old(vm.sent) + out1 + out2
  {
    ExecuteTankCommand(vm, ip, c, true, pressedAt);
    ExecuteTankCommand(vm, ip, c, false, releasedAt);
  }
}
