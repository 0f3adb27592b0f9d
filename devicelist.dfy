/** The controller sweep of the device list screen: with the phone's
    hotspot address known, hosts 1 to 254 of its subnet are probed in
    ascending order, every "ok" answer from an "RC" board is listed, and the
    progress bar moves at every tenth host number. Which address the phone
    has is the input `ipAddress`; the network is the oracle `probe`. */
module DeviceList {
  import opened Options
  import opened Digits
  import opened Net
  import opened Seqs

  datatype ConnectedDevice = ConnectedDevice(ip: string, model: string, controllerId: string, camId: string)

  const IDLE_TEXT := "Tekan tombol untuk memulai"
  const LOOKING_TEXT := "Mencari alamat IP Hotspot..."
  const NO_IP_TEXT := "Gagal: Tidak dapat mendeteksi IP Hotspot."
  const NONE_FOUND_TEXT := "Pemindaian selesai. Tidak ada alat yang ditemukan."

  function ScanningText(subnet: string): string
  {
    "Memindai subnet: " + subnet + ".x"
  }

  /** The closing text: it depends only on how many devices were listed. */
  function DoneText(count: nat): (t: string)
    ensures count == 0 <==> t == NONE_FOUND_TEXT
  {
    if count == 0 then NONE_FOUND_TEXT
    else
      var t := "Pemindaian selesai. " + NatToString(count) + " alat ditemukan.";
      assert t[20] != NONE_FOUND_TEXT[20] by {
        assert t[20] == NatToString(count)[0];
      }
      t
  }

  /** The entry listed for a matching board; absent ids read "N/A". */
  function DeviceOf(host: string, p: Probe): (d: ConnectedDevice)
    requires IsController(p)
    ensures d.ip == host && d.model == "RC"
    ensures d.controllerId == OrElse(p.controllerId, "N/A") && d.camId == OrElse(p.camId, "N/A")
  {
    ConnectedDevice(host, p.model.value, OrElse(p.controllerId, "N/A"), OrElse(p.camId, "N/A"))
  }

  /** What the host loop accumulates: the list, the last progress mark (in
      254ths) and the hosts probed. */
  datatype DevSweep = DevSweep(devices: seq<ConnectedDevice>, progress: nat, probed: seq<string>)

  /** Host numbers that are multiples of ten move the progress bar. */
  predicate TenthMark(i: nat)
    decreases i
  {
    if i < 10 then i == 0 else TenthMark(i - 10)
  }

  /** `TenthMark` is Kotlin's `i % 10 == 0` on a non-negative number. */
  lemma {:induction false} TenthMarkIsModulo(i: nat)
    ensures TenthMark(i) <==> i % 10 == 0
    decreases i
  {
    if i >= 10 {
      TenthMarkIsModulo(i - 10);
    }
  }

  /** One pass of the loop body for host number `i`. The phone's own
      address is skipped with `continue`, which also skips the progress
      update for that number. */
  function VisitDevice(subnet: string, ip: string, probe: string -> Probe, st: DevSweep, i: nat): (r: DevSweep)
    ensures Host(subnet, i) == ip ==> r == st
    ensures r.devices != st.devices ==> Host(subnet, i) != ip && IsController(probe(Host(subnet, i)))
  {
    var host := Host(subnet, i);
    if host == ip then st
    else
      var p := probe(host);
      var devices := if IsController(p) then st.devices + [DeviceOf(host, p)] else st.devices;
      DevSweep(devices, if TenthMark(i) then i else st.progress, st.probed + [host])
  }

  /** The loop over host numbers `i` to 254. */
  function SweepFrom(subnet: string, ip: string, probe: string -> Probe, st: DevSweep, i: nat): (r: DevSweep)
    ensures |st.devices| <= |r.devices| && |st.probed| <= |r.probed|
    decreases LAST_HOST + 1 - i
  {
    if i > LAST_HOST then st
    else SweepFrom(subnet, ip, probe, VisitDevice(subnet, ip, probe, st, i), i + 1)
  }

  /** The devices of host numbers `i` to 254, in host order. */
  function Matches(subnet: string, ip: string, probe: string -> Probe, i: nat): (r: seq<ConnectedDevice>)
    ensures forall d :: d in r ==> d.model == "RC" && d.ip != ip
    decreases LAST_HOST + 1 - i
  {
    if i > LAST_HOST then []
    else
      var host := Host(subnet, i);
      (if host != ip && IsController(probe(host)) then [DeviceOf(host, probe(host))] else [])
        + Matches(subnet, ip, probe, i + 1)
  }

  /** The hosts of numbers `i` to 254 but the phone's own, in order. */
  function Hosts(subnet: string, ip: string, i: nat): (r: seq<string>)
    ensures ip !in r
    decreases LAST_HOST + 1 - i
  {
    if i > LAST_HOST then []
    else (if Host(subnet, i) != ip then [Host(subnet, i)] else []) + Hosts(subnet, ip, i + 1)
  }

  /* ---------------- what the sweep promises ---------------- */

  /** The loop lists exactly the matching boards, in host order, and probes
      every host but the phone's own, in ascending order. */
  lemma {:induction false} SweepLists(subnet: string, ip: string, probe: string -> Probe, st: DevSweep, i: nat)
    ensures SweepFrom(subnet, ip, probe, st, i).devices == st.devices + Matches(subnet, ip, probe, i)
    decreases LAST_HOST + 1 - i
  {
    if i <= LAST_HOST {
      var st' := VisitDevice(subnet, ip, probe, st, i);
      SweepLists(subnet, ip, probe, st', i + 1);
      var host := Host(subnet, i);
      var head := if host != ip && IsController(probe(host)) then [DeviceOf(host, probe(host))] else [];
      assert st'.devices == st.devices + head;
      AppendAssoc(st.devices, head, Matches(subnet, ip, probe, i + 1));
    }
  }

  lemma {:induction false} SweepProbes(subnet: string, ip: string, probe: string -> Probe, st: DevSweep, i: nat)
    ensures SweepFrom(subnet, ip, probe, st, i).probed == st.probed + Hosts(subnet, ip, i)
    decreases LAST_HOST + 1 - i
  {
    if i <= LAST_HOST {
      var st' := VisitDevice(subnet, ip, probe, st, i);
      SweepProbes(subnet, ip, probe, st', i + 1);
      var host := Host(subnet, i);
      var head := if host != ip then [host] else [];
      assert st'.probed == st.probed + head;
      AppendAssoc(st.probed, head, Hosts(subnet, ip, i + 1));
    }
  }

  /** Every board answering "ok" as "RC" from a host other than the phone
      is listed. */
  lemma {:induction false} MatchesComplete(subnet: string, ip: string, probe: string -> Probe, i: nat, j: nat)
    requires i <= j <= LAST_HOST
    requires Host(subnet, j) != ip && IsController(probe(Host(subnet, j)))
    ensures DeviceOf(Host(subnet, j), probe(Host(subnet, j))) in Matches(subnet, ip, probe, i)
    decreases j - i
  {
    if i < j {
      MatchesComplete(subnet, ip, probe, i + 1, j);
    }
  }

  /** Every listed entry is such a board's, from a host of number `i` or
      above. */
  lemma {:induction false} MatchesSound(subnet: string, ip: string, probe: string -> Probe, i: nat, d: ConnectedDevice)
    requires d in Matches(subnet, ip, probe, i)
    ensures exists j :: (i <= j <= LAST_HOST && Host(subnet, j) != ip && IsController(probe(Host(subnet, j))) &&
                         d == DeviceOf(Host(subnet, j), probe(Host(subnet, j))))
    ensures d.model == "RC" && d.ip != ip
    decreases LAST_HOST + 1 - i
  {
    var host := Host(subnet, i);
    if !(host != ip && IsController(probe(host)) && d == DeviceOf(host, probe(host))) {
      MatchesSound(subnet, ip, probe, i + 1, d);
    }
  }

  /** No two entries share an address. */
  predicate DistinctIps(m: seq<ConnectedDevice>)
  {
    forall a, b :: 0 <= a < b < |m| ==> m[a].ip != m[b].ip
  }

  /** No board is listed twice. */
  lemma {:induction false} MatchesDistinct(subnet: string, ip: string, probe: string -> Probe, i: nat)
    ensures DistinctIps(Matches(subnet, ip, probe, i))
    decreases LAST_HOST + 1 - i
  {
    if i <= LAST_HOST {
      MatchesDistinct(subnet, ip, probe, i + 1);
      MatchesHostsAbove(subnet, ip, probe, i + 1, i);
      var host := Host(subnet, i);
      var head := if host != ip && IsController(probe(host)) then [DeviceOf(host, probe(host))] else [];
      DistinctPrepend(head, Matches(subnet, ip, probe, i + 1), host);
    }
  }

  /** Putting at most one entry for a new address in front keeps the
      addresses distinct. */
  lemma DistinctPrepend(head: seq<ConnectedDevice>, tail: seq<ConnectedDevice>, host: string)
    requires |head| <= 1 && (forall d :: d in head ==> d.ip == host)
    requires DistinctIps(tail) && forall d :: d in tail ==> d.ip != host
    ensures DistinctIps(head + tail)
  {
    var m := head + tail;
    forall a, b | 0 <= a < b < |m|
      ensures m[a].ip != m[b].ip
    {
      assert m[b] == tail[b - |head|];
      if a >= |head| {
        assert m[a] == tail[a - |head|];
      } else {
        assert m[a] in head;
        assert m[b] in tail;
      }
    }
  }

  /** Entries listed from number `i` on belong to hosts of numbers `i` and
      above. */
  lemma {:induction false} MatchesHostsAbove(subnet: string, ip: string, probe: string -> Probe, i: nat, j: nat)
    requires j < i
    ensures forall d :: d in Matches(subnet, ip, probe, i) ==> d.ip != Host(subnet, j)
    decreases LAST_HOST + 1 - i
  {
    if i <= LAST_HOST {
      MatchesHostsAbove(subnet, ip, probe, i + 1, j);
      HostInjective(subnet, i, j);
    }
  }

  /** Without the phone's own address at number 250, the bar ends at 250;
      with it there, the `continue` skips that update and the bar ends at 240. */
  lemma {:induction false} FinalProgress(subnet: string, ip: string, probe: string -> Probe, st: DevSweep, i: nat)
    requires i <= 240
    ensures Host(subnet, 250) != ip ==> SweepFrom(subnet, ip, probe, st, i).progress == 250
    ensures Host(subnet, 250) == ip ==> SweepFrom(subnet, ip, probe, st, i).progress == 240
    decreases LAST_HOST + 1 - i
  {
    if i < 240 {
      FinalProgress(subnet, ip, probe, VisitDevice(subnet, ip, probe, st, i), i + 1);
    } else {
      ProgressFrom240(subnet, ip, probe, st, i);
    }
  }

  /** Number 240 moves the bar unless it is the phone's own, which it is not
      when 250 is. */
  lemma ProgressFrom240(subnet: string, ip: string, probe: string -> Probe, st: DevSweep, i: nat)
    requires i == 240
    ensures Host(subnet, 250) != ip ==> SweepFrom(subnet, ip, probe, st, i).progress == 250
    ensures Host(subnet, 250) == ip ==> SweepFrom(subnet, ip, probe, st, i).progress == 240
  {
    var st' := VisitDevice(subnet, ip, probe, st, i);
    SweepStep(subnet, ip, probe, st, i);
    ProgressTail(subnet, ip, probe, st', i + 1);
    if Host(subnet, 250) == ip {
      HostInjective(subnet, 240, 250);
      MarkAt240();
      VisitMarkMoves(subnet, ip, probe, st, 240);
    }
  }

  /** The loop from number `i` is the body for `i`, then the loop from `i + 1`. */
  lemma SweepStep(subnet: string, ip: string, probe: string -> Probe, st: DevSweep, i: nat)
    requires i <= LAST_HOST
    ensures SweepFrom(subnet, ip, probe, st, i) == SweepFrom(subnet, ip, probe, VisitDevice(subnet, ip, probe, st, i), i + 1)
  {
  }

  /** Number 240 is a multiple of ten. */
  lemma MarkAt240()
    ensures TenthMark(240)
  {
    TenthMarkIsModulo(240);
  }

  /** A host number that is a multiple of ten and not the phone's own moves
      the bar to that number. */
  lemma VisitMarkMoves(subnet: string, ip: string, probe: string -> Probe, st: DevSweep, i: nat)
    requires TenthMark(i) && Host(subnet, i) != ip
    ensures VisitDevice(subnet, ip, probe, st, i).progress == i
  {
  }

  /** From number 241 on, only 250 can move the bar. */
  lemma {:induction false} ProgressTail(subnet: string, ip: string, probe: string -> Probe, st: DevSweep, i: nat)
    requires 241 <= i <= LAST_HOST + 1
    ensures SweepFrom(subnet, ip, probe, st, i).progress ==
      if i <= 250 && Host(subnet, 250) != ip then 250 else st.progress
    decreases LAST_HOST + 1 - i
  {
    if i <= LAST_HOST {
      TenthMarkIsModulo(i);
      ProgressTail(subnet, ip, probe, VisitDevice(subnet, ip, probe, st, i), i + 1);
    }
  }

  /* ---------------- the screen state ---------------- */

  class DeviceListState {
    var foundDevices: seq<ConnectedDevice>
    var isScanning: bool
    /** The progress bar in 254ths. */
    var scanProgress: nat
    var scanStatusText: string
    var selectedDevice: Option<ConnectedDevice>
    /** The hosts probed, in order. */
    ghost var probed: seq<string>

    constructor ()
      ensures foundDevices == [] && !isScanning && scanProgress == 0
      ensures scanStatusText == IDLE_TEXT && selectedDevice == None && probed == []
    {
      foundDevices := [];
      isScanning := false;
      scanProgress := 0;
      scanStatusText := IDLE_TEXT;
      selectedDevice := None;
      probed := [];
    }

    /** One pass of the host loop of `startNetworkScan`. */
    method VisitHost(subnet: string, ip: string, probe: string -> Probe, i: nat)
      modifies this
      ensures DevSweep(foundDevices, scanProgress, probed) ==
        VisitDevice(subnet, ip, probe, DevSweep(old(foundDevices), old(scanProgress), old(probed)), i)
      ensures isScanning == old(isScanning) && scanStatusText == old(scanStatusText)
      ensures selectedDevice == old(selectedDevice)
    {
      var host := Host(subnet, i);
      if host == ip {
        return;
      }
      probed := probed + [host];
      var response := probe(host);
      if response.Response? && response.status == "ok" && response.model == Some("RC") {
        foundDevices := foundDevices + [DeviceOf(host, response)];
      }
      TenthMarkIsModulo(i);
      if i % 10 == 0 {
        scanProgress := i;
      }
    }

    /** The host loop of `startNetworkScan`. */
    method SweepHosts(subnet: string, ip: string, probe: string -> Probe)
      modifies this
      ensures DevSweep(foundDevices, scanProgress, probed) ==
        SweepFrom(subnet, ip, probe, DevSweep(old(foundDevices), old(scanProgress), old(probed)), FIRST_HOST)
      ensures isScanning == old(isScanning) && scanStatusText == old(scanStatusText)
      ensures selectedDevice == old(selectedDevice)
    {
      ghost var goal := SweepFrom(subnet, ip, probe, DevSweep(foundDevices, scanProgress, probed), FIRST_HOST);
      var i := FIRST_HOST;
      while i <= LAST_HOST
        invariant FIRST_HOST <= i <= LAST_HOST + 1
        invariant goal == SweepFrom(subnet, ip, probe, DevSweep(foundDevices, scanProgress, probed), i)
        invariant isScanning == old(isScanning) && scanStatusText == old(scanStatusText)
        invariant selectedDevice == old(selectedDevice)
        decreases LAST_HOST + 1 - i
      {
        VisitHost(subnet, ip, probe, i);
        i := i + 1;
      }
    }

    /** `startNetworkScan`, with the hotspot address it looks up as input. */
    method StartNetworkScan(ipAddress: Option<string>, probe: string -> Probe)
      modifies this
      ensures old(isScanning) ==>
        foundDevices == old(foundDevices) && isScanning && scanProgress == old(scanProgress) &&
        scanStatusText == old(scanStatusText) && selectedDevice == old(selectedDevice) && probed == old(probed)
      ensures !old(isScanning) && ipAddress.None? ==>
        foundDevices == [] && !isScanning && scanStatusText == NO_IP_TEXT && selectedDevice == None &&
        scanProgress == old(scanProgress) && probed == old(probed)
      ensures !old(isScanning) && ipAddress.Some? ==>
        var subnet := SubnetOf(ipAddress.value);
        foundDevices == Matches(subnet, ipAddress.value, probe, FIRST_HOST) &&
        probed == old(probed) + Hosts(subnet, ipAddress.value, FIRST_HOST) &&
        scanProgress == (if Host(subnet, 250) != ipAddress.value then 250 else 240) &&
        scanStatusText == DoneText(|foundDevices|) && !isScanning && selectedDevice == None
    {
      if isScanning {
        return;
      }
      isScanning := true;
      foundDevices := [];
      selectedDevice := None;
      scanStatusText := LOOKING_TEXT;
      if ipAddress.None? {
        scanStatusText := NO_IP_TEXT;
        isScanning := false;
        return;
      }
      var ip := ipAddress.value;
      var subnet := SubnetOf(ip);
      scanStatusText := ScanningText(subnet);
      ghost var start := DevSweep(foundDevices, scanProgress, probed);
      SweepLists(subnet, ip, probe, start, FIRST_HOST);
      SweepProbes(subnet, ip, probe, start, FIRST_HOST);
      FinalProgress(subnet, ip, probe, start, FIRST_HOST);
      SweepHosts(subnet, ip, probe);
      scanStatusText := if |foundDevices| == 0 then NONE_FOUND_TEXT
        else "Pemindaian selesai. " + NatToString(|foundDevices|) + " alat ditemukan.";
      isScanning := false;
    }
  }
}
