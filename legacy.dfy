/** The stream screen's own control view model and its safety reaction: a
    dispatcher with one forward block (exactly "maju"), an emergency lock,
    and the effect that runs on every change of the safety state, raising
    the block and the lock under DANGER and dropping the lock otherwise. */
module LegacyScreen {
  import opened Proximity
  import opened Dispatcher

  /** The fields `sendCommandSmooth` reads and writes. */
  datatype LegacyGate = LegacyGate(
    isLocked: bool,
    blockForward: bool,
    slowMode: bool,
    lastCommand: string,
    lastSendTime: int)

  const InitialLegacyGate := LegacyGate(false, false, false, "", 0)

  /** The same fields as a gate of the main dispatcher, which has no hard
      block. */
  function AsGate(g: LegacyGate): (r: Gate)
    ensures !r.blockForwardHard
  {
    Gate(g.isLocked, g.blockForward, false, g.slowMode, g.lastCommand, g.lastSendTime)
  }

  /** One `sendCommandSmooth` call at time `now`. */
  function LegacySend(g: LegacyGate, ip: string, channel: string, command: string, now: int): (r: (LegacyGate, seq<Get>))
    ensures |r.1| <= 1
    ensures r.1 == [] <==>
      (g.isLocked && command != "stop") || (g.blockForward && command == "maju") ||
      (channel + ":" + command == g.lastCommand && now - g.lastSendTime < Interval(g.slowMode))
    ensures r.1 == [] ==> r.0 == g
    ensures r.1 != [] ==> r.1 == [Get(ip, channel, command)]
  {
    if g.isLocked && command != "stop" then (g, [])
    else if g.blockForward && command == "maju" then (g, [])
    else
      var key := channel + ":" + command;
      var interval := if g.slowMode then 180 else 120;
      if key == g.lastCommand && now - g.lastSendTime < interval then (g, [])
      else (g.(lastCommand := key, lastSendTime := now), [Get(ip, channel, command)])
  }

  /** `stopBoth`. */
  function LegacyStopBoth(g: LegacyGate, ip: string, now: int): (r: (LegacyGate, seq<Get>))
    ensures 1 <= |r.1| <= 2 && r.1[|r.1| - 1] == Get(ip, "b", "stop")
    ensures r.0 == g.(lastCommand := "b:stop", lastSendTime := now)
  {
    assert ("a" + ":" + "stop")[0] != ("b" + ":" + "stop")[0];
    var (g1, s1) := LegacySend(g, ip, "a", "stop", now);
    var (g2, s2) := LegacySend(g1, ip, "b", "stop", now);
    (g2, s1 + s2)
  }

  /* ---------------- the legacy dispatcher is the main one ---------------- */

  /** The legacy dispatcher fires what the main one fires with its soft block
      set as the legacy block and its hard block down, and leaves the same
      gate behind. */
  lemma LegacyIsSoftBlockDispatcher(g: LegacyGate, ip: string, channel: string, command: string, now: int)
    ensures var r := LegacySend(g, ip, channel, command, now);
      var d := Send(AsGate(g), ip, channel, command, now);
      r.1 == d.1 && AsGate(r.0) == d.0
  {
  }

  lemma LegacyStopBothIsStopBoth(g: LegacyGate, ip: string, now: int)
    ensures var r := LegacyStopBoth(g, ip, now);
      var d := StopBothSend(AsGate(g), ip, now);
      r.1 == d.1 && AsGate(r.0) == d.0
  {
    LegacyIsSoftBlockDispatcher(g, ip, "a", "stop", now);
    var (g1, s1) := LegacySend(g, ip, "a", "stop", now);
    LegacyIsSoftBlockDispatcher(g1, ip, "b", "stop", now);
  }

  /* ---------------- the safety reaction ---------------- */

  /** The effect run on a new safety state: the forward block follows
      DANGER; DANGER on an unlocked gate locks it and stops both tracks;
      WARNING and SAFE unlock. */
  function React(g: LegacyGate, state: SafetyState, ip: string, now: int): (r: (LegacyGate, seq<Get>))
    ensures forall q :: q in r.1 ==> q.ip == ip && q.command == "stop"
    ensures r.1 != [] <==> state == DANGER && !g.isLocked
    ensures r.0.slowMode == g.slowMode
  {
    var g1 := g.(blockForward := state == DANGER);
    match state
    case DANGER => if !g1.isLocked then LegacyStopBoth(g1.(isLocked := true), ip, now) else (g1, [])
    case WARNING => (g1.(isLocked := false), [])
    case SAFE => (g1.(isLocked := false), [])
  }

  /** After the effect, the block and the lock are both up exactly under
      DANGER, and the debounce window is unchanged. */
  lemma ReactFlags(g: LegacyGate, state: SafetyState, ip: string, now: int)
    ensures var r := React(g, state, ip, now).0;
      (r.blockForward <==> state == DANGER) && (r.isLocked <==> state == DANGER) && r.slowMode == g.slowMode
  {
    if state == DANGER && !g.isLocked {
      var l := g.(blockForward := true, isLocked := true);
      LegacyStopBothIsStopBoth(l, ip, now);
      StopBothShape(AsGate(l), ip, now);
    }
  }

  /** DANGER on an unlocked gate tells both tracks to stop, "a" first, unless
      "a:stop" was itself sent inside the window; "b" is always told. */
  lemma DangerStopsBothTracks(g: LegacyGate, ip: string, now: int)
    requires !g.isLocked
    ensures var s := React(g, DANGER, ip, now).1;
      Get(ip, "b", "stop") in s &&
      (s == [Get(ip, "a", "stop"), Get(ip, "b", "stop")] <==> !Debounced(AsGate(g), "a", "stop", now))
  {
    var l := g.(blockForward := true, isLocked := true);
    LegacyStopBothIsStopBoth(l, ip, now);
    StopBothShape(AsGate(l), ip, now);
    var (g1, s1) := Send(AsGate(l), ip, "a", "stop", now);
    StopPassesLocks(g1, ip, "b", now);
    KeyInjective("a", "stop", "b", "stop");
    if s1 != [] {
      assert !Debounced(g1, "b", "stop", now);
    }
  }

  /** A DANGER effect on a gate already locked fires nothing, so a DANGER
      that persists or repeats stops the tracks only once. */
  lemma RepeatedDangerIsSilent(g: LegacyGate, ip: string, now: int, later: int)
    ensures React(g, DANGER, ip, now).0.isLocked
    ensures React(React(g, DANGER, ip, now).0, DANGER, ip, later).1 == []
  {
    ReactFlags(g, DANGER, ip, now);
  }

  /** Under DANGER every drive command other than "stop" is dropped; after
      WARNING or SAFE neither the lock nor the block drops anything. */
  lemma LockAfterReact(g: LegacyGate, state: SafetyState, ip: string, now: int, channel: string, command: string, later: int)
    ensures state == DANGER && command != "stop" ==>
      LegacySend(React(g, state, ip, now).0, ip, channel, command, later).1 == []
    ensures state != DANGER ==>
      var r := React(g, state, ip, now).0;
      !r.isLocked && !r.blockForward &&
      (LegacySend(r, ip, channel, command, later).1 == [] <==>
        channel + ":" + command == r.lastCommand && later - r.lastSendTime < Interval(r.slowMode))
  {
    ReactFlags(g, state, ip, now);
  }

  /* ---------------- the view model ---------------- */

  class ControlViewModel {
    var isLocked: bool
    var blockForward: bool
    var slowMode: bool
    var lastSendTime: int
    var lastCommand: string
    var isDevMode: bool
    /** The GETs fired so far, in order. */
    ghost var sent: seq<Get>

    ghost function GateState(): LegacyGate
      reads this
    {
      LegacyGate(isLocked, blockForward, slowMode, lastCommand, lastSendTime)
    }

    constructor ()
      ensures GateState() == InitialLegacyGate && sent == [] && !isDevMode
    {
      isLocked := false;
      blockForward := false;
      slowMode := false;
      lastSendTime := 0;
      lastCommand := "";
      isDevMode := false;
      sent := [];
    }

    method SendCommandSmooth(ip: string, channel: string, command: string, now: int)
      modifies this
      ensures GateState() == LegacySend(old(GateState()), ip, channel, command, now).0
      ensures sent == old(sent) + LegacySend(old(GateState()), ip, channel, command, now).1
      ensures isDevMode == old(isDevMode)
    {
      if isLocked && command != "stop" {
        return;
      }
      if blockForward && command == "maju" {
        return;
      }
      var key := channel + ":" + command;
      var interval := if slowMode then 180 else 120;
      if key == lastCommand && now - lastSendTime < interval {
        return;
      }
      lastCommand := key;
      lastSendTime := now;
      sent := sent + [Get(ip, channel, command)];
    }

    method StopBoth(ip: string, now: int)
      modifies this
      ensures GateState() == LegacyStopBoth(old(GateState()), ip, now).0
      ensures sent == old(sent) + LegacyStopBoth(old(GateState()), ip, now).1
      ensures isDevMode == old(isDevMode)
    {
      SendCommandSmooth(ip, "a", "stop", now);
      SendCommandSmooth(ip, "b", "stop", now);
    }

    method ToggleDevMode()
      modifies this
      ensures isDevMode == !old(isDevMode)
      ensures GateState() == old(GateState()) && sent == old(sent)
    {
      isDevMode := !isDevMode;
    }
  }

  /** The effect the stream screen runs whenever the safety state changes. */
  method OnSafetyState(vm: ControlViewModel, state: SafetyState, ip: string, now: int)
    modifies vm
    ensures vm.GateState() == React(old(vm.GateState()), state, ip, now).0
    ensures vm.sent == old(vm.sent) + React(old(vm.GateState()), state, ip, now).1
    ensures vm.isDevMode == old(vm.isDevMode)
  {
    vm.blockForward := state == DANGER;
    match state
    case DANGER =>
      if !vm.isLocked {
        vm.isLocked := true;
        vm.StopBoth(ip, now);
      }
    case WARNING =>
      vm.isLocked := false;
    case SAFE =>
      vm.isLocked := false;
  }
}
