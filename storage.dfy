/** The controller table kept in the app's preferences: a list of paired
    controller and camera records, read whole and written whole on each
    change. The JSON encoding is not modelled; the store holds the list
    itself, or nothing when the key is absent. */
module Storage {
  import opened Options

  datatype ControllerData = ControllerData(
    model: Option<string>,
    controllerIP: string,
    controllerID: Option<string>,
    camIP: Option<string>,
    camID: string)

  /** Kotlin's `indexOfFirst`: the first position whose record satisfies the
      key test, or -1. The key test is "same controller IP" or "same camera
      id", selected by `byIp`. */
  predicate HasKey(d: ControllerData, byIp: bool, key: string)
  {
    if byIp then d.controllerIP == key else d.camID == key
  }

  function IndexOfFirst(list: seq<ControllerData>, byIp: bool, key: string): (k: int)
    ensures -1 <= k < |list|
    ensures k == -1 <==> forall i :: 0 <= i < |list| ==> !HasKey(list[i], byIp, key)
    ensures k >= 0 ==> HasKey(list[k], byIp, key) && forall i :: 0 <= i < k ==> !HasKey(list[i], byIp, key)
  {
    if |list| == 0 then -1
    else if HasKey(list[0], byIp, key) then 0
    else
      var k := IndexOfFirst(list[1..], byIp, key);
      assert forall i :: 1 <= i < |list| ==> list[1..][i - 1] == list[i];
      if k == -1 then -1 else k + 1
  }

  /** `saveController`'s list: the first record with the same controller IP
      is replaced, otherwise the record is appended. */
  function Upsert(list: seq<ControllerData>, d: ControllerData): (r: seq<ControllerData>)
    ensures d in r
    ensures forall e :: e in r ==> e == d || e in list
  {
    var k := IndexOfFirst(list, true, d.controllerIP);
    if k >= 0 then assert list[k := d][k] == d; list[k := d]
    else assert (list + [d])[|list|] == d; list + [d]
  }

  /** `updateController`'s list: the first record with that camera id is
      replaced; without one the list is unchanged. */
  function ReplaceByCam(list: seq<ControllerData>, camID: string, d: ControllerData): (r: seq<ControllerData>)
    ensures |r| == |list|
    ensures forall e :: e in r ==> e == d || e in list
    ensures IndexOfFirst(list, false, camID) == -1 ==> r == list
    ensures IndexOfFirst(list, false, camID) != -1 ==> d in r
  {
    var k := IndexOfFirst(list, false, camID);
    if k != -1 then assert list[k := d][k] == d; list[k := d] else list
  }

  /** The store after `updateController`: written only when a record has
      that camera id. */
  function StoredAfterUpdate(stored: Option<seq<ControllerData>>, camID: string, d: ControllerData)
    : (r: Option<seq<ControllerData>>)
    ensures stored.None? ==> r == stored
    ensures r != stored ==> stored.Some? && r.Some? && |r.value| == |stored.value| && d in r.value
  {
    var table := if stored.Some? then stored.value else [];
    if IndexOfFirst(table, false, camID) == -1 then stored
    else Some(ReplaceByCam(table, camID, d))
  }

  /** `getCamIPByCamID`: the camera IP of the first record with that camera
      id; none when there is no such record or its camera IP is unset. */
  function CamIPOf(list: seq<ControllerData>, camID: string): (r: Option<string>)
    ensures r.Some? ==> exists i :: 0 <= i < |list| && list[i].camID == camID && list[i].camIP == r
    ensures (forall i :: 0 <= i < |list| ==> list[i].camID != camID) ==> r.None?
  {
    var k := IndexOfFirst(list, false, camID);
    if k == -1 then None else list[k].camIP
  }

  /** `deleteControllerByIP`'s list: `filterNot` on the controller IP. */
  function DeleteByIp(list: seq<ControllerData>, ip: string): (r: seq<ControllerData>)
    ensures |r| <= |list|
    ensures forall e :: e in r <==> e in list && e.controllerIP != ip
  {
    if |list| == 0 then []
    else if list[0].controllerIP == ip then DeleteByIp(list[1..], ip)
    else [list[0]] + DeleteByIp(list[1..], ip)
  }

  /* ---------------- what the table promises ---------------- */

  /** `indexOfFirst` is the one position holding the first match. */
  lemma FirstIndexUnique(list: seq<ControllerData>, byIp: bool, key: string, k: nat)
    requires k < |list| && HasKey(list[k], byIp, key)
    requires forall i :: 0 <= i < k ==> !HasKey(list[i], byIp, key)
    ensures IndexOfFirst(list, byIp, key) == k
  {
    var j := IndexOfFirst(list, byIp, key);
    assert j != -1;
  }

  /** After a save the record is in the list; every other position holds
      what it held; the list grows by one only when the IP was new. When
      several records share d's IP, only the first of them is replaced. */
  lemma UpsertPlacesRecord(list: seq<ControllerData>, d: ControllerData)
    ensures var r := Upsert(list, d);
      d in r && |list| <= |r| <= |list| + 1 &&
      (|r| == |list| <==> exists i :: 0 <= i < |list| && list[i].controllerIP == d.controllerIP) &&
      (forall i :: 0 <= i < |list| && list[i].controllerIP != d.controllerIP ==> r[i] == list[i])
    ensures var r := Upsert(list, d);
      var k := IndexOfFirst(list, true, d.controllerIP);
      (k >= 0 ==>
        |r| == |list| && r[k] == d &&
        forall i :: 0 <= i < |list| && i != k ==> r[i] == list[i]) &&
      (k < 0 ==> r == list + [d])
  {
    var k := IndexOfFirst(list, true, d.controllerIP);
    if k < 0 {
      assert Upsert(list, d)[|list|] == d;
    } else {
      assert Upsert(list, d)[k] == d;
    }
  }

  /** Saving the same record twice is saving it once. */
  lemma UpsertIdempotent(list: seq<ControllerData>, d: ControllerData)
    ensures Upsert(Upsert(list, d), d) == Upsert(list, d)
  {
    var k := IndexOfFirst(list, true, d.controllerIP);
    var r := Upsert(list, d);
    if k < 0 {
      assert r[|list|] == d;
      assert IndexOfFirst(r, true, d.controllerIP) == |list|;
    } else {
      assert r[k] == d && forall i :: 0 <= i < k ==> r[i] == list[i];
      FirstIndexUnique(r, true, d.controllerIP, k);
    }
  }

  /** Deleting the IP just saved leaves what deleting it before the save
      would have left. */
  lemma {:induction false} DeleteAfterUpsert(list: seq<ControllerData>, d: ControllerData)
    ensures DeleteByIp(Upsert(list, d), d.controllerIP) == DeleteByIp(list, d.controllerIP)
  {
    var k := IndexOfFirst(list, true, d.controllerIP);
    if k < 0 {
      DeleteAppendOther(list, [d], d.controllerIP);
      assert DeleteByIp([d], d.controllerIP) == DeleteByIp([d][1..], d.controllerIP);
    } else {
      DeleteUpdateSameIp(list, k, d);
    }
  }

  /** `filterNot` distributes over concatenation. */
  lemma {:induction false} DeleteAppendOther(a: seq<ControllerData>, b: seq<ControllerData>, ip: string)
    ensures DeleteByIp(a + b, ip) == DeleteByIp(a, ip) + DeleteByIp(b, ip)
    decreases |a|
  {
    if |a| == 0 {
      assert a + b == b;
    } else {
      assert (a + b)[1..] == a[1..] + b;
      DeleteAppendOther(a[1..], b, ip);
    }
  }

  /** Overwriting a record with one of the same IP does not change what a
      delete of that IP leaves. */
  lemma {:induction false} DeleteUpdateSameIp(list: seq<ControllerData>, k: nat, d: ControllerData)
    requires k < |list| && list[k].controllerIP == d.controllerIP
    ensures DeleteByIp(list[k := d], d.controllerIP) == DeleteByIp(list, d.controllerIP)
    decreases |list|
  {
    if k == 0 {
      assert list[k := d][1..] == list[1..];
    } else {
      assert list[k := d][1..] == list[1..][k - 1 := d];
      DeleteUpdateSameIp(list[1..], k - 1, d);
    }
  }

  /** Deleting keeps the surviving records in their order: deleting an IP
      that no record has changes nothing. */
  lemma {:induction false} DeleteAbsentIsIdentity(list: seq<ControllerData>, ip: string)
    requires forall i :: 0 <= i < |list| ==> list[i].controllerIP != ip
    ensures DeleteByIp(list, ip) == list
    decreases |list|
  {
    if |list| > 0 {
      DeleteAbsentIsIdentity(list[1..], ip);
    }
  }

  /** The camera lookup answers from the first matching record, and a
      camera update makes the lookup answer with the new record's camera IP
      whenever the new record keeps the camera id. */
  lemma LookupAfterReplace(list: seq<ControllerData>, camID: string, d: ControllerData)
    requires d.camID == camID
    ensures IndexOfFirst(list, false, camID) != -1 ==> CamIPOf(ReplaceByCam(list, camID, d), camID) == d.camIP
    ensures IndexOfFirst(list, false, camID) == -1 ==>
      ReplaceByCam(list, camID, d) == list && CamIPOf(list, camID) == None
  {
    var k := IndexOfFirst(list, false, camID);
    if k != -1 {
      var r := list[k := d];
      assert r[k] == d && forall i :: 0 <= i < k ==> r[i] == list[i];
      FirstIndexUnique(r, false, camID, k);
    }
  }

  /* ---------------- the store ---------------- */

  class LocalStorageControllerRC {
    /** The stored list, or `None` when the key is absent. */
    var stored: Option<seq<ControllerData>>

    /** `getController`'s answer on the current store. */
    ghost function Table(): seq<ControllerData>
      reads this
    {
      if stored.Some? then stored.value else []
    }

    constructor (initial: Option<seq<ControllerData>>)
      ensures stored == initial
    {
      stored := initial;
    }

    method GetController() returns (r: seq<ControllerData>)
      ensures r == Table()
      ensures stored.None? ==> r == []
    {
      match stored
      case None => r := [];
      case Some(list) => r := list;
    }

    method SaveController(d: ControllerData)
      modifies this
      ensures stored == Some(Upsert(old(Table()), d))
    {
      var list := GetController();
      var index := IndexOfFirst(list, true, d.controllerIP);
      if index >= 0 {
        list := list[index := d];
      } else {
        list := list + [d];
      }
      stored := Some(list);
    }

    method UpdateController(camID: string, d: ControllerData)
      modifies this
      ensures stored == StoredAfterUpdate(old(stored), camID, d)
    {
      var list := GetController();
      var index := IndexOfFirst(list, false, camID);
      if index != -1 {
        list := list[index := d];
        stored := Some(list);
      }
    }

    method GetCamIPByCamID(camID: string) returns (r: Option<string>)
      ensures r == CamIPOf(Table(), camID)
    {
      var list := GetController();
      var index := IndexOfFirst(list, false, camID);
      r := if index == -1 then None else list[index].camIP;
    }

    method ClearAll()
      modifies this
      ensures stored == None && Table() == []
    {
      stored := None;
    }

    /** Always writes, even when nothing is removed or nothing was stored. */
    method DeleteControllerByIP(ip: string)
      modifies this
      ensures stored == Some(DeleteByIp(old(Table()), ip))
    {
      var list := GetController();
      stored := Some(DeleteByIp(list, ip));
    }
  }
}
