/** The drive-command dispatcher of `ControlViewModel`: every drive command
    of the app passes `sendCommandSmooth`, which drops it under the emergency
    lock or the forward blocks, debounces it against the single last accepted
    `channel:command` key, and otherwise fires one HTTP GET. */
module Dispatcher {
  import opened Motion
  import opened Recorder

  /** One GET `http://ip/channel/command` handed to the HTTP client. */
  datatype Get = Get(ip: string, channel: string, command: string)

  function Url(g: Get): (u: string)
    ensures |u| == 7 + |g.ip| + 1 + |g.channel| + 1 + |g.command|
    ensures u[..7] == "http://"
  {
    "http://" + g.ip + "/" + g.channel + "/" + g.command
  }

  /** The debounce key `"$channel:$command"`. */
  function Key(channel: string, command: string): string
  {
    channel + ":" + command
  }

  /** In a key the first ':' ends the channel. */
  lemma KeyColon(channel: string, command: string)
    requires ':' !in channel
    ensures Key(channel, command)[|channel|] == ':'
    ensures forall i :: 0 <= i < |channel| ==> Key(channel, command)[i] != ':'
  {
  }

  /** Keys of channels without a ':' never coincide unless both parts do. */
  lemma KeyInjective(c1: string, x1: string, c2: string, x2: string)
    requires ':' !in c1 && ':' !in c2
    ensures Key(c1, x1) == Key(c2, x2) <==> c1 == c2 && x1 == x2
  {
    if Key(c1, x1) == Key(c2, x2) {
      var k := Key(c1, x1);
      KeyColon(c1, x1);
      KeyColon(c2, x2);
      assert |c1| == |c2|;
      assert c1 == k[..|c1|] == c2;
      assert x1 == k[|c1| + 1..] == x2;
    }
  }

  /** The debounce window: 180 ms in slow mode, 120 ms otherwise. */
  function Interval(slowMode: bool): (ms: int)
    ensures ms == 120 || ms == 180
    ensures slowMode <==> ms == 180
  {
    if slowMode then 180 else 120
  }

  /** Kotlin's `String.contains`, as a scan over start positions. */
  predicate Contains(s: string, sub: string)
    decreases |s|
  {
    |sub| <= |s| && (s[..|sub|] == sub || Contains(s[1..], sub))
  }

  /** `sub` occurs in `s` starting at position `i`. */
  ghost predicate OccursAt(s: string, sub: string, i: int)
  {
    0 <= i <= |s| - |sub| && s[i..i + |sub|] == sub
  }

  /** `Contains` finds `sub` exactly when it occurs at some position. */
  lemma {:induction false} ContainsOccurs(s: string, sub: string)
    ensures Contains(s, sub) <==> exists i :: OccursAt(s, sub, i)
    decreases |s|
  {
    if |sub| <= |s| && s[..|sub|] != sub {
      ContainsOccurs(s[1..], sub);
      if Contains(s[1..], sub) {
        var i :| OccursAt(s[1..], sub, i);
        assert s[i + 1..i + 1 + |sub|] == s[1..][i..i + |sub|];
        assert OccursAt(s, sub, i + 1);
      }
      if i :| OccursAt(s, sub, i) {
        assert i != 0;
        assert s[1..][i - 1..i - 1 + |sub|] == s[i..i + |sub|];
        assert OccursAt(s[1..], sub, i - 1);
      }
    } else if |sub| <= |s| {
      assert OccursAt(s, sub, 0);
    }
  }

  /** The dispatcher's gate state: the lock flags the safety logic sets, and
      the key and time of the last accepted command. */
  datatype Gate = Gate(
    isLocked: bool,
    blockForwardOnly: bool,
    blockForwardHard: bool,
    slowMode: bool,
    lastCommand: string,
    lastSendTime: int)

  /** A freshly built view model: no flag raised, no command sent yet. */
  const InitialGate := Gate(false, false, false, false, "", 0)

  /** A lock flag drops the command: the emergency lock all but "stop", the
      hard block anything containing "maju", the soft block exactly "maju". */
  predicate Blocked(g: Gate, command: string)
  {
    (g.isLocked && command != "stop")
    || (g.blockForwardHard && Contains(command, "maju"))
    || (g.blockForwardOnly && command == "maju")
  }

  /** The same key as the last accepted one, within the debounce window. */
  predicate Debounced(g: Gate, channel: string, command: string, now: int)
  {
    Key(channel, command) == g.lastCommand && now - g.lastSendTime < Interval(g.slowMode)
  }

  /** One `sendCommandSmooth` call at time `now`: the new gate and the GETs
      it fires (none or one). */
  function Send(g: Gate, ip: string, channel: string, command: string, now: int): (r: (Gate, seq<Get>))
    ensures |r.1| <= 1
    ensures r.1 == [] <==> Blocked(g, command) || Debounced(g, channel, command, now)
    ensures r.1 == [] ==> r.0 == g
    ensures r.1 != [] ==>
      r.1 == [Get(ip, channel, command)] &&
      r.0 == g.(lastCommand := Key(channel, command), lastSendTime := now)
  {
    if Blocked(g, command) || Debounced(g, channel, command, now) then (g, [])
    else (g.(lastCommand := Key(channel, command), lastSendTime := now), [Get(ip, channel, command)])
  }

  /** `stopBoth`: "a" then "b" told to stop, both read at `now`. */
  function StopBothSend(g: Gate, ip: string, now: int): (r: (Gate, seq<Get>))
    ensures 1 <= |r.1| <= 2 && r.1[|r.1| - 1] == Get(ip, "b", "stop")
    ensures r.0 == g.(lastCommand := Key("b", "stop"), lastSendTime := now)
  {
    StopPassesLocks(g, ip, "a", now);
    KeyInjective("a", "stop", "b", "stop");
    var (g1, s1) := Send(g, ip, "a", "stop", now);
    StopPassesLocks(g1, ip, "b", now);
    var (g2, s2) := Send(g1, ip, "b", "stop", now);
    (g2, s1 + s2)
  }

  /* ---------------- what the gate promises ---------------- */

  /** While locked, every command but "stop" is dropped. */
  lemma LockRejectsAllButStop(g: Gate, ip: string, channel: string, command: string, now: int)
    requires g.isLocked && command != "stop"
    ensures Send(g, ip, channel, command, now) == (g, [])
  {
  }

  /** "stop" passes every lock flag: only the debounce can drop it. */
  lemma StopPassesLocks(g: Gate, ip: string, channel: string, now: int)
    ensures Send(g, ip, channel, "stop", now).1 == []
        <==> Debounced(g, channel, "stop", now)
  {
    assert "stop"[..4] != "maju" by {
      assert "stop"[..4][0] == 's';
    }
    assert !Contains("top", "maju");
  }

  /** Under the hard block anything containing "maju" is dropped. */
  lemma HardBlockRejectsMaju(g: Gate, ip: string, channel: string, command: string, now: int)
    requires g.blockForwardHard
    requires exists i :: OccursAt(command, "maju", i)
    ensures Send(g, ip, channel, command, now) == (g, [])
  {
    ContainsOccurs(command, "maju");
  }

  /** The soft block alone drops exactly "maju": a longer command that merely
      contains it, such as a turning command, still passes. */
  lemma SoftBlockExactlyMaju(g: Gate, command: string)
    requires g.blockForwardOnly && !g.isLocked && !g.blockForwardHard
    ensures Blocked(g, command) <==> command == "maju"
  {
  }

  /** The same key is dropped strictly inside the window and sent again at
      exactly the window's end or later. */
  lemma DebounceBoundary(g: Gate, ip: string, channel: string, command: string, now: int)
    requires !Blocked(g, command)
    requires Key(channel, command) == g.lastCommand
    ensures Send(g, ip, channel, command, now).1 == [] <==> now < g.lastSendTime + Interval(g.slowMode)
  {
  }

  /** A different key is never debounced, however soon it follows. */
  lemma OtherKeyNeverDebounced(g: Gate, ip: string, channel: string, command: string, now: int)
    requires !Blocked(g, command)
    requires Key(channel, command) != g.lastCommand
    ensures Send(g, ip, channel, command, now).1 == [Get(ip, channel, command)]
    ensures Send(g, ip, channel, command, now).0.lastCommand == Key(channel, command)
  {
  }

  /** The first command after construction is never debounced. */
  lemma FirstCommandSent(ip: string, channel: string, command: string, now: int)
    requires !Blocked(InitialGate, command)
    ensures Send(InitialGate, ip, channel, command, now).1 == [Get(ip, channel, command)]
  {
    assert Key(channel, command)[|channel|] == ':';
  }

  /** `stopBoth` fires "b" whatever happened to "a", since the two keys
      differ; it fires "a" unless "a:stop" was the last key inside the window. */
  lemma StopBothShape(g: Gate, ip: string, now: int)
    ensures var r := StopBothSend(g, ip, now);
      (r.1 == [Get(ip, "a", "stop"), Get(ip, "b", "stop")] <==> !Debounced(g, "a", "stop", now)) &&
      (Debounced(g, "a", "stop", now) ==> r.1 == [Get(ip, "b", "stop")]) &&
      r.0.isLocked == g.isLocked && r.0.slowMode == g.slowMode
  {
    StopPassesLocks(g, ip, "a", now);
    var (g1, s1) := Send(g, ip, "a", "stop", now);
    StopPassesLocks(g1, ip, "b", now);
    KeyInjective("a", "stop", "b", "stop");
    if s1 != [] {
      assert g1.lastCommand == Key("a", "stop");
      assert !Debounced(g1, "b", "stop", now);
    }
  }

  /** Only the single last key is remembered, so two `stopBoth` calls in a
      row at the same instant fire four GETs once the first "a" got out. */
  lemma StopBothTwiceSendsFour(g: Gate, ip: string, now: int)
    requires !Debounced(g, "a", "stop", now)
    ensures var (g1, s1) := StopBothSend(g, ip, now);
      var (g2, s2) := StopBothSend(g1, ip, now);
      |s1 + s2| == 4 && g2.lastCommand == Key("b", "stop")
  {
    StopBothShape(g, ip, now);
    var (g1, s1) := StopBothSend(g, ip, now);
    assert g1.lastCommand == Key("b", "stop");
    KeyInjective("a", "stop", "b", "stop");
    assert !Debounced(g1, "a", "stop", now);
    StopBothShape(g1, ip, now);
  }

  /* ---------------- the view model ---------------- */

  class ControlViewModel {
    var isLocked: bool
    var blockForwardOnly: bool
    var blockForwardHard: bool
    var slowMode: bool
    var lastSendTime: int
    var lastCommand: string
    var isDevMode: bool
    /** The GETs fired so far, in order. */
    ghost var sent: seq<Get>
    const rthRecorder: RthRecorder

    ghost function GateState(): Gate
      reads this
    {
      Gate(isLocked, blockForwardOnly, blockForwardHard, slowMode, lastCommand, lastSendTime)
    }

    ghost predicate Valid()
      reads this, rthRecorder
    {
      rthRecorder.Valid()
    }

    constructor ()
      ensures Valid() && fresh(rthRecorder)
      ensures GateState() == InitialGate && sent == [] && !isDevMode
      ensures rthRecorder.State() == RecState([], false, false, DIAM, 0, "stop", "stop", Options.None)
    {
      isLocked := false;
      blockForwardOnly := false;
      blockForwardHard := false;
      slowMode := false;
      lastSendTime := 0;
      lastCommand := "";
      isDevMode := false;
      sent := [];
      rthRecorder := new RthRecorder();
    }

    method SendCommandSmooth(ip: string, channel: string, command: string, now: int)
      modifies this
      ensures GateState() == Send(old(GateState()), ip, channel, command, now).0
      ensures sent == old(sent) + Send(old(GateState()), ip, channel, command, now).1
      ensures isDevMode == old(isDevMode)
    {
      if isLocked && command != "stop" {
        return;
      }
      if blockForwardHard {
        if Contains(command, "maju") {
          return;
        }
      }
      if blockForwardOnly {
        if command == "maju" {
          return;
        }
      }
      var key := channel + ":" + command;
      var interval := if slowMode then 180 else 120;
      if key == lastCommand && now - lastSendTime < interval {
        return;
      }
      lastCommand := key;
      lastSendTime := now;
      sent := sent + [Get(ip, channel, command)];
    }

    method StopBoth(ip: string, now: int)
      modifies this
      ensures GateState() == StopBothSend(old(GateState()), ip, now).0
      ensures sent == old(sent) + StopBothSend(old(GateState()), ip, now).1
      ensures isDevMode == old(isDevMode)
    {
      SendCommandSmooth(ip, "a", "stop", now);
      SendCommandSmooth(ip, "b", "stop", now);
    }

    method ToggleDevMode()
      modifies this
      ensures isDevMode == !old(isDevMode)
      ensures GateState() == old(GateState()) && sent == old(sent)
    {
      isDevMode := !isDevMode;
    }

    /** Stops the recorder and hands back its segments. */
    method StopRecord(now: int) returns (r: seq<RthMotionCommand>)
      requires Valid()
      modifies rthRecorder
      ensures Valid()
      ensures rthRecorder.State() == Stopped(old(rthRecorder.State()), now)
      ensures r == rthRecorder.motionLog
    {
      rthRecorder.StopRecord(now);
      r := rthRecorder.GetRecordedMotions();
    }
  }
}
