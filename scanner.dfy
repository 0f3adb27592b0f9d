/** The camera sweep: every host of the controller's subnet except the
    controller itself gets the password form; the first board answering as
    a camera is written into the controller table and reported, and no
    request is sent once it is found. The sweep runs here host by host in
    ascending order, and the network is the oracle `probe`. */
module Scanner {
  import opened Options
  import opened Net
  import opened Storage

  /* ---------------- the sweep, as functions ---------------- */

  /** The first host number from `i` on that is not the controller and
      answers as a camera. */
  function FirstCamera(subnet: string, ip: string, probe: string -> Probe, i: nat): (r: Option<nat>)
    ensures r.Some? ==>
      i <= r.value <= LAST_HOST && Host(subnet, r.value) != ip && IsCamera(probe(Host(subnet, r.value)))
    ensures r.Some? ==> forall j :: i <= j < r.value ==>
      Host(subnet, j) == ip || !IsCamera(probe(Host(subnet, j)))
    ensures r.None? ==> forall j :: i <= j <= LAST_HOST ==>
      Host(subnet, j) == ip || !IsCamera(probe(Host(subnet, j)))
    decreases LAST_HOST + 1 - i
  {
    if i > LAST_HOST then None
    else if Host(subnet, i) != ip && IsCamera(probe(Host(subnet, i))) then Some(i)
    else FirstCamera(subnet, ip, probe, i + 1)
  }

  /** The hosts from number `i` on that receive a request: all but the
      controller, up to and including the first camera. */
  function ProbedHosts(subnet: string, ip: string, probe: string -> Probe, i: nat): seq<string>
    decreases LAST_HOST + 1 - i
  {
    if i > LAST_HOST then []
    else if Host(subnet, i) == ip then ProbedHosts(subnet, ip, probe, i + 1)
    else if IsCamera(probe(Host(subnet, i))) then [Host(subnet, i)]
    else [Host(subnet, i)] + ProbedHosts(subnet, ip, probe, i + 1)
  }

  /** How many host numbers from `i` on are not the controller: each of
      them advances the progress once, found camera or not. */
  function NonOwnCount(subnet: string, ip: string, i: nat): nat
    decreases LAST_HOST + 1 - i
  {
    if i > LAST_HOST then 0
    else (if Host(subnet, i) == ip then 0 else 1) + NonOwnCount(subnet, ip, i + 1)
  }

  /** The record written for the camera found at `host`. */
  function FoundRecord(ip: string, camID: string, host: string, p: Probe): (d: ControllerData)
    ensures d.controllerIP == ip && d.controllerID == Some(camID) && d.camIP == Some(host)
    ensures d.model == Some("RC")
    ensures p.Response? && p.camId.Some? ==> d.camID == p.camId.value
    ensures !(p.Response? && p.camId.Some?) ==> d.camID == camID
  {
    ControllerData(Some("RC"), ip, Some(camID), Some(host),
                   OrElse(if p.Response? then p.camId else None, camID))
  }

  /* ---------------- what the sweep promises ---------------- */

  /** The controller itself is never probed. */
  lemma {:induction false} ControllerNeverProbed(subnet: string, ip: string, probe: string -> Probe, i: nat)
    ensures ip !in ProbedHosts(subnet, ip, probe, i)
    decreases LAST_HOST + 1 - i
  {
    if i <= LAST_HOST {
      ControllerNeverProbed(subnet, ip, probe, i + 1);
    }
  }

  /** Once the camera is found nothing more is probed: the probed hosts end
      with the camera's host. */
  lemma {:induction false} ProbesStopAtCamera(subnet: string, ip: string, probe: string -> Probe, i: nat)
    requires FirstCamera(subnet, ip, probe, i).Some?
    ensures var hs := ProbedHosts(subnet, ip, probe, i);
      |hs| > 0 && hs[|hs| - 1] == Host(subnet, FirstCamera(subnet, ip, probe, i).value)
    decreases LAST_HOST + 1 - i
  {
    var host := Host(subnet, i);
    if host == ip || !IsCamera(probe(host)) {
      ProbesStopAtCamera(subnet, ip, probe, i + 1);
      var rest := ProbedHosts(subnet, ip, probe, i + 1);
      if host != ip {
        assert ProbedHosts(subnet, ip, probe, i) == [host] + rest;
      }
    }
  }

  /** Without a camera every non-controller host is probed. */
  lemma {:induction false} ProbesAllWithoutCamera(subnet: string, ip: string, probe: string -> Probe, i: nat)
    requires FirstCamera(subnet, ip, probe, i).None?
    ensures |ProbedHosts(subnet, ip, probe, i)| == NonOwnCount(subnet, ip, i)
    decreases LAST_HOST + 1 - i
  {
    if i <= LAST_HOST {
      ProbesAllWithoutCamera(subnet, ip, probe, i + 1);
    }
  }

  /** Every host number appears once among the 254, so the controller's own
      address removes at most one step from the progress. */
  lemma {:induction false} NonOwnCountValue(subnet: string, ip: string, i: nat)
    requires i <= LAST_HOST + 1
    ensures (exists k :: i <= k <= LAST_HOST && Host(subnet, k) == ip) ==>
      NonOwnCount(subnet, ip, i) == LAST_HOST - i
    ensures (forall k :: i <= k <= LAST_HOST ==> Host(subnet, k) != ip) ==>
      NonOwnCount(subnet, ip, i) == LAST_HOST + 1 - i
    decreases LAST_HOST + 1 - i
  {
    if i <= LAST_HOST {
      NonOwnCountValue(subnet, ip, i + 1);
      if Host(subnet, i) == ip {
        forall k | i + 1 <= k <= LAST_HOST
          ensures Host(subnet, k) != ip
        {
          HostInjective(subnet, i, k);
        }
      }
    }
  }

  /** The sweep's running state: the camera host found, the hosts probed,
      the progress steps and the store. */
  datatype Sweep = Sweep(
    found: Option<string>,
    probed: seq<string>,
    steps: nat,
    stored: Option<seq<ControllerData>>)

  /** One host's job: skip the controller; once found, only count the host;
      otherwise probe it and, on a camera, write the record and report it. */
  function VisitHost(ip: string, camID: string, probe: string -> Probe, st: Sweep, host: string): (r: Sweep)
    ensures host == ip ==> r == st
    ensures st.found.Some? ==> r.found == st.found && r.probed == st.probed && r.stored == st.stored
    ensures r.found != st.found ==> r.found == Some(host) && host != ip && IsCamera(probe(host))
  {
    if host == ip then st
    else if st.found.Some? then st.(steps := st.steps + 1)
    else if IsCamera(probe(host)) then
      Sweep(Some(host), st.probed + [host], st.steps + 1,
            StoredAfterUpdate(st.stored, camID, FoundRecord(ip, camID, host, probe(host))))
    else st.(probed := st.probed + [host], steps := st.steps + 1)
  }

  /** The jobs of hosts `i` to 254, in ascending order. */
  function SweepFrom(subnet: string, ip: string, camID: string, probe: string -> Probe, st: Sweep, i: nat): (r: Sweep)
    ensures r.steps >= st.steps
    ensures st.found.Some? ==> r.found == st.found
    decreases LAST_HOST + 1 - i
  {
    if i > LAST_HOST then st
    else SweepFrom(subnet, ip, camID, probe, VisitHost(ip, camID, probe, st, Host(subnet, i)), i + 1)
  }

  /** After the camera is found the remaining jobs only count progress. */
  lemma {:induction false} SweepAfterFound(subnet: string, ip: string, camID: string, probe: string -> Probe, st: Sweep, i: nat)
    requires st.found.Some?
    ensures SweepFrom(subnet, ip, camID, probe, st, i) == st.(steps := st.steps + NonOwnCount(subnet, ip, i))
    decreases LAST_HOST + 1 - i
  {
    if i <= LAST_HOST {
      SweepAfterFound(subnet, ip, camID, probe, VisitHost(ip, camID, probe, st, Host(subnet, i)), i + 1);
    }
  }

  /** The sweep reports the first camera and writes the store only for the
      camera it reports. */
  lemma {:induction false} SweepOutcome(subnet: string, ip: string, camID: string, probe: string -> Probe, st: Sweep, i: nat)
    requires st.found.None?
    ensures var r := SweepFrom(subnet, ip, camID, probe, st, i);
      var first := FirstCamera(subnet, ip, probe, i);
      && r.found == (if first.Some? then Some(Host(subnet, first.value)) else None)
      && r.stored == (if first.Some? then
           StoredAfterUpdate(st.stored, camID,
             FoundRecord(ip, camID, Host(subnet, first.value), probe(Host(subnet, first.value))))
         else st.stored)
    decreases LAST_HOST + 1 - i
  {
    if i <= LAST_HOST {
      var host := Host(subnet, i);
      var st' := VisitHost(ip, camID, probe, st, host);
      if host != ip && IsCamera(probe(host)) {
        SweepAfterFound(subnet, ip, camID, probe, st', i + 1);
      } else {
        SweepOutcome(subnet, ip, camID, probe, st', i + 1);
      }
    }
  }

  /** The sweep counts every non-controller host. */
  lemma {:induction false} SweepSteps(subnet: string, ip: string, camID: string, probe: string -> Probe, st: Sweep, i: nat)
    requires st.found.None?
    ensures SweepFrom(subnet, ip, camID, probe, st, i).steps == st.steps + NonOwnCount(subnet, ip, i)
    decreases LAST_HOST + 1 - i
  {
    if i <= LAST_HOST {
      var host := Host(subnet, i);
      var st' := VisitHost(ip, camID, probe, st, host);
      if host != ip && IsCamera(probe(host)) {
        SweepAfterFound(subnet, ip, camID, probe, st', i + 1);
      } else {
        SweepSteps(subnet, ip, camID, probe, st', i + 1);
      }
    }
  }

  /** The sweep probes exactly the hosts up to the first camera. */
  lemma {:induction false} SweepProbed(subnet: string, ip: string, camID: string, probe: string -> Probe, st: Sweep, i: nat)
    requires st.found.None?
    ensures SweepFrom(subnet, ip, camID, probe, st, i).probed == st.probed + ProbedHosts(subnet, ip, probe, i)
    decreases LAST_HOST + 1 - i
  {
    if i <= LAST_HOST {
      var host := Host(subnet, i);
      var st' := VisitHost(ip, camID, probe, st, host);
      assert SweepFrom(subnet, ip, camID, probe, st, i) == SweepFrom(subnet, ip, camID, probe, st', i + 1);
      if host == ip {
        assert st' == st;
        SweepProbed(subnet, ip, camID, probe, st', i + 1);
      } else if IsCamera(probe(host)) {
        assert st'.probed == st.probed + [host];
        assert ProbedHosts(subnet, ip, probe, i) == [host];
        SweepAfterFound(subnet, ip, camID, probe, st', i + 1);
      } else {
        assert st'.probed == st.probed + [host];
        assert ProbedHosts(subnet, ip, probe, i) == [host] + ProbedHosts(subnet, ip, probe, i + 1);
        SweepProbed(subnet, ip, camID, probe, st', i + 1);
        assert st.probed + [host] + ProbedHosts(subnet, ip, probe, i + 1)
            == st.probed + ([host] + ProbedHosts(subnet, ip, probe, i + 1));
      }
    }
  }

  /* ---------------- the scanner ---------------- */

  class CameraScanner {
    const ip: string
    const camID: string
    const storage: LocalStorageControllerRC
    /** The progress bar in 254ths: one per finished non-controller host. */
    var progressSteps: nat
    var statusText: string
    /** The hosts the password form was sent to, in order. */
    ghost var probed: seq<string>

    constructor (ip: string, camID: string, storage: LocalStorageControllerRC)
      ensures this.ip == ip && this.camID == camID && this.storage == storage
      ensures progressSteps == 0 && statusText == "Menunggu pemindaian..." && probed == []
    {
      this.ip := ip;
      this.camID := camID;
      this.storage := storage;
      progressSteps := 0;
      statusText := "Menunggu pemindaian...";
      probed := [];
    }

    /** The job of one host: skip the controller; once found, only count
        the host; otherwise probe it and, on a camera, write the record. */
    method Job(host: string, probe: string -> Probe, result: Option<string>) returns (result': Option<string>)
      modifies this, storage
      ensures Sweep(result', probed, progressSteps, storage.stored) ==
        VisitHost(ip, camID, probe, Sweep(result, old(probed), old(progressSteps), old(storage.stored)), host)
      ensures statusText == old(statusText)
    {
      result' := result;
      if host != ip {
        if result.None? {
          probed := probed + [host];
          var response := probe(host);
          if response.Response? && response.status == "ok" && response.model == Some("CAM") {
            var updated := FoundRecord(ip, camID, host, response);
            storage.UpdateController(camID, updated);
            result' := Some(host);
          }
        }
        progressSteps := progressSteps + 1;
      }
    }

    /** The host-number loop of `scan`, from `result = None`. */
    method RunJobs(subnet: string, probe: string -> Probe) returns (result: Option<string>)
      modifies this, storage
      ensures Sweep(result, probed, progressSteps, storage.stored) ==
        SweepFrom(subnet, ip, camID, probe, Sweep(None, old(probed), old(progressSteps), old(storage.stored)), FIRST_HOST)
      ensures statusText == old(statusText)
    {
      ghost var goal := SweepFrom(subnet, ip, camID, probe, Sweep(None, probed, progressSteps, storage.stored), FIRST_HOST);
      result := None;
      var i := FIRST_HOST;
      while i <= LAST_HOST
        invariant FIRST_HOST <= i <= LAST_HOST + 1
        invariant goal == SweepFrom(subnet, ip, camID, probe, Sweep(result, probed, progressSteps, storage.stored), i)
        invariant statusText == old(statusText)
        decreases LAST_HOST + 1 - i
      {
        result := Job(Host(subnet, i), probe, result);
        i := i + 1;
      }
    }

    /** `scan`: the host passed to `onResult`, `None` for the final
        not-found call. */
    method Scan(probe: string -> Probe) returns (result: Option<string>)
      modifies this, storage
      ensures var subnet := SubnetOf(ip);
        var first := FirstCamera(subnet, ip, probe, FIRST_HOST);
        && result == (if first.Some? then Some(Host(subnet, first.value)) else None)
        && probed == old(probed) + ProbedHosts(subnet, ip, probe, FIRST_HOST)
        && progressSteps == old(progressSteps) + NonOwnCount(subnet, ip, FIRST_HOST)
        && storage.stored == (if first.Some? then
             StoredAfterUpdate(old(storage.stored), camID,
               FoundRecord(ip, camID, Host(subnet, first.value), probe(Host(subnet, first.value))))
           else old(storage.stored))
      ensures statusText == old(statusText)
    {
      var subnet := SubnetOf(ip);
      ghost var start := Sweep(None, probed, progressSteps, storage.stored);
      SweepOutcome(subnet, ip, camID, probe, start, FIRST_HOST);
      SweepSteps(subnet, ip, camID, probe, start, FIRST_HOST);
      SweepProbed(subnet, ip, camID, probe, start, FIRST_HOST);
      result := RunJobs(subnet, probe);
    }
  }
}
