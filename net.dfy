/** What both discovery sweeps share: the subnet of an IPv4 address in dotted
    text, the 254 host addresses of that subnet, and the answer a host gives
    to the password form that every board on the hotspot serves. */
module Net {
  import opened Options
  import opened Digits

  /** The hosts `subnet.1` to `subnet.254` are probed. */
  const FIRST_HOST: nat := 1
  const LAST_HOST: nat := 254

  /** The index of the last '.' in `s`, if there is one. */
  function LastDot(s: string): (r: Option<nat>)
    ensures r.None? <==> '.' !in s
    ensures r.Some? ==> r.value < |s| && s[r.value] == '.' && '.' !in s[r.value + 1..]
  {
    if |s| == 0 then None
    else if s[|s| - 1] == '.' then Some(|s| - 1)
    else
      var r := LastDot(s[..|s| - 1]);
      assert s[..|s| - 1] + [s[|s| - 1]] == s;
      if r.Some? then
        assert s[r.value + 1..] == s[..|s| - 1][r.value + 1..] + [s[|s| - 1]];
        r
      else r
  }

  /** Kotlin's `substringBeforeLast('.')`: the text before the last '.', or
      the whole text when there is no '.'. */
  function SubnetOf(ip: string): (subnet: string)
    ensures '.' !in ip ==> subnet == ip
    ensures '.' in ip ==> subnet < ip && ip[|subnet|] == '.' && '.' !in ip[|subnet| + 1..]
  {
    match LastDot(ip)
    case None => ip
    case Some(k) => ip[..k]
  }

  /** The host `"$subnet.$i"`. */
  function Host(subnet: string, i: nat): string
  {
    subnet + "." + NatToString(i)
  }

  /** A decimal numeral holds no '.'. */
  lemma NoDotInNumeral(n: nat)
    ensures '.' !in NatToString(n)
  {
  }

  /** Taking the subnet of a host gives the subnet back. */
  lemma SubnetOfHost(subnet: string, i: nat)
    ensures SubnetOf(Host(subnet, i)) == subnet
  {
    var h := Host(subnet, i);
    NoDotInNumeral(i);
    assert h[|subnet|] == '.';
    assert h[|subnet| + 1..] == NatToString(i);
  }

  /** Different host numbers give different hosts. */
  lemma HostInjective(subnet: string, i: nat, j: nat)
    ensures Host(subnet, i) == Host(subnet, j) <==> i == j
  {
    if Host(subnet, i) == Host(subnet, j) {
      assert NatToString(i) == Host(subnet, i)[|subnet| + 1..];
      NatToStringInjective(i, j);
    }
  }

  /** The outcome of one probe: the connection or the decoding failed, or
      the board answered with these fields (absent ones are `None`). */
  datatype Probe =
    | Failure
    | Response(status: string, model: Option<string>, controllerId: Option<string>, camId: Option<string>)

  /** The camera sweep accepts an "ok" answer from a "CAM" board. */
  predicate IsCamera(p: Probe)
  {
    p.Response? && p.status == "ok" && p.model == Some("CAM")
  }

  /** The device sweep accepts an "ok" answer from an "RC" board. */
  predicate IsController(p: Probe)
  {
    p.Response? && p.status == "ok" && p.model == Some("RC")
  }

  /** No answer is both a camera and a controller. */
  lemma CameraNotController(p: Probe)
    ensures !(IsCamera(p) && IsController(p))
    ensures p.Failure? ==> !IsCamera(p) && !IsController(p)
  {
  }

  /** Kotlin's `x ?: fallback` on an optional string. */
  function OrElse(x: Option<string>, fallback: string): (r: string)
    ensures x.Some? ==> r == x.value
    ensures x.None? ==> r == fallback
  {
    match x
    case Some(v) => v
    case None => fallback
  }
}
