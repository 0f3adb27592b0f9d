/** The camera selection state of the stream screen: which camera address
    the stream uses, and whether a sweep is running. A sweep is started at
    most once while none runs and no camera is known; its results arrive
    through a callback that keeps the first camera reported for good. */
module Camera {
  import opened Options
  import opened Net
  import opened Storage
  import opened Scanner

  const WAITING := "Menunggu kamera..."
  const CONNECTING := "🔄 Menghubungkan ke kamera..."

  function FoundText(host: string): string
  {
    "✅ Kamera ditemukan di " + host
  }

  /** The view model's fields, as one value. */
  datatype Cam = Cam(found: Option<string>, candidate: Option<string>, scanning: bool, status: string)

  const InitialCam := Cam(None, None, false, WAITING)

  /** The scan callback with host `host` (`None` for "no camera"). */
  function OnResult(c: Cam, host: Option<string>): (r: Cam)
    ensures c.found.Some? || host.None? ==> r == c
    ensures c.found.None? && host.Some? ==> r.found == host && r.candidate.None? && !r.scanning
  {
    if host.None? then c
    else
      var c1 := if c.candidate.None? && c.found.None? then c.(candidate := host, status := CONNECTING) else c;
      if c1.found.None? then c1.(found := host, candidate := None, status := FoundText(host.value), scanning := false)
      else c1
  }

  /** `getActiveCamIp`: the found camera, else the candidate. */
  function ActiveCamIp(c: Cam): (r: Option<string>)
    ensures c.found.Some? ==> r == c.found
    ensures c.found.None? ==> r == c.candidate
  {
    if c.found.Some? then c.found else c.candidate
  }

  /** A run of callbacks, in order. */
  function OnResults(c: Cam, hosts: seq<Option<string>>): Cam
    decreases |hosts|
  {
    if |hosts| == 0 then c else OnResults(OnResult(c, hosts[0]), hosts[1..])
  }

  /** The first host reported, if any. */
  function FirstReported(hosts: seq<Option<string>>): (r: Option<string>)
    ensures r.Some? <==> exists k :: 0 <= k < |hosts| && hosts[k].Some?
    ensures r.Some? ==> exists k :: 0 <= k < |hosts| && hosts[k] == r && (forall j :: 0 <= j < k ==> hosts[j].None?)
    decreases |hosts|
  {
    if |hosts| == 0 then None
    else if hosts[0].Some? then hosts[0]
    else
      var r := FirstReported(hosts[1..]);
      assert forall j :: 1 <= j < |hosts| ==> hosts[j] == hosts[1..][j - 1];
      if r.Some? then
        var k :| 0 <= k < |hosts| - 1 && hosts[1..][k] == r && forall j :: 0 <= j < k ==> hosts[1..][j].None?;
        assert hosts[k + 1] == r;
        r
      else r
  }

  /* ---------------- what the state promises ---------------- */

  /** A not-found callback changes nothing: the sweep still counts as running. */
  lemma NotFoundChangesNothing(c: Cam)
    ensures OnResult(c, None) == c
    ensures OnResult(c, None).scanning == c.scanning
  {
  }

  /** A found callback on a state without a camera makes that host the camera
      for good: the candidate is cleared and the sweep counts as over. */
  lemma FoundCallback(c: Cam, host: string)
    ensures c.found.None? ==>
      var r := OnResult(c, Some(host));
      r.found == Some(host) && r.candidate == None && !r.scanning && ActiveCamIp(r) == Some(host)
    ensures c.found.Some? ==> OnResult(c, Some(host)) == c
  {
  }

  /** Over any run of callbacks, the camera is the first host ever reported
      and is never overwritten afterwards. */
  lemma {:induction false} FirstReportedSticks(c: Cam, hosts: seq<Option<string>>)
    ensures c.found.Some? ==> OnResults(c, hosts) == c
    ensures c.found.None? ==> OnResults(c, hosts).found == FirstReported(hosts)
    ensures c.found.None? && FirstReported(hosts).None? ==> OnResults(c, hosts) == c
    decreases |hosts|
  {
    if |hosts| > 0 {
      FirstReportedSticks(OnResult(c, hosts[0]), hosts[1..]);
    }
  }

  /** The host a sweep reports: the first camera among the hosts. */
  function SweepResult(ip: string, probe: string -> Probe): (r: Option<string>)
    ensures r.Some? ==> r.value != ip && IsCamera(probe(r.value))
  {
    var subnet := SubnetOf(ip);
    var first := FirstCamera(subnet, ip, probe, FIRST_HOST);
    if first.Some? then Some(Host(subnet, first.value)) else None
  }

  /** `startScan` is a no-op while a sweep runs or once a camera is known. */
  predicate ScanBlocked(c: Cam)
  {
    c.scanning || c.found.Some?
  }

  /** A sweep that finds no camera leaves the state "scanning", so every
      later `startScan` is a no-op. */
  lemma NotFoundBlocksRescan(c: Cam, ip: string, probe: string -> Probe)
    requires !ScanBlocked(c) && SweepResult(ip, probe).None?
    ensures var r := OnResult(c.(scanning := true), SweepResult(ip, probe));
      ScanBlocked(r) && r.found.None? && ActiveCamIp(r) == c.candidate
  {
  }

  /* ---------------- the view model ---------------- */

  class CameraViewModel {
    var foundCameraIp: Option<string>
    var candidateIp: Option<string>
    var isScanning: bool
    var statusText: string

    ghost function State(): Cam
      reads this
    {
      Cam(foundCameraIp, candidateIp, isScanning, statusText)
    }

    constructor ()
      ensures State() == InitialCam
    {
      foundCameraIp := None;
      candidateIp := None;
      isScanning := false;
      statusText := WAITING;
    }

    /** The callback handed to the scanner. */
    method OnScanResult(host: Option<string>)
      modifies this
      ensures State() == OnResult(old(State()), host)
    {
      if host.None? {
        return;
      }
      if candidateIp.None? && foundCameraIp.None? {
        candidateIp := host;
        statusText := CONNECTING;
      }
      if foundCameraIp.None? {
        foundCameraIp := host;
        candidateIp := None;
        statusText := FoundText(host.value);
        isScanning := false;
      }
    }

    /** `startScan`: the sweep runs to its end before its result is applied. */
    method StartScan(ip: string, camID: string, storage: LocalStorageControllerRC, probe: string -> Probe)
      modifies this, storage
      ensures ScanBlocked(old(State())) ==> State() == old(State()) && storage.stored == old(storage.stored)
      ensures !ScanBlocked(old(State())) ==>
        State() == OnResult(old(State()).(scanning := true), SweepResult(ip, probe))
    ensures !ScanBlocked(old(State())) ==>
        var subnet := SubnetOf(ip);
        var first := FirstCamera(subnet, ip, probe, FIRST_HOST);
        storage.stored == (if first.Some? then
          StoredAfterUpdate(old(storage.stored), camID,
            FoundRecord(ip, camID, Host(subnet, first.value), probe(Host(subnet, first.value))))
        else old(storage.stored))
    {
      if isScanning || foundCameraIp.Some? {
        return;
      }
      isScanning := true;
      var scanner := new CameraScanner(ip, camID, storage);
      var host := scanner.Scan(probe);
      OnScanResult(host);
    }

    method GetActiveCamIp() returns (r: Option<string>)
      ensures r == ActiveCamIp(State())
    {
      r := if foundCameraIp.Some? then foundCameraIp else candidateIp;
    }
  }
}
