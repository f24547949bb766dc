/** Host naming: the MAC address that identifies this machine is the one of its
    fastest network interface that has a full-length physical address. The
    operating system's interface list is an input. */
module Naming {

  /** A network interface: its speed in bits per second (-1 when unknown) and
      its physical address as a hex string. */
  datatype NetworkInterface = NetworkInterface(speed: int, mac: string)

  /** The shortest physical address accepted: six bytes as twelve hex digits. */
  const MinMacAddrLength: int := 12

  /** An interface can be chosen: its speed beats the initial -1 and its
      address is non-empty and full length. */
  predicate Eligible(nic: NetworkInterface)
  {
    nic.speed > -1 && nic.mac != "" && |nic.mac| >= MinMacAddrLength
  }

  /** Among the first `n` interfaces, `k` is eligible, as fast as every
      eligible one, and strictly faster than every eligible one before it. */
  ghost predicate FirstFastestAmong(nics: seq<NetworkInterface>, n: int, k: int)
    requires 0 <= n <= |nics|
  {
    0 <= k < n && Eligible(nics[k]) &&
    (forall j :: 0 <= j < n && Eligible(nics[j]) ==> nics[j].speed <= nics[k].speed) &&
    (forall j :: 0 <= j < k && Eligible(nics[j]) ==> nics[j].speed < nics[k].speed)
  }

  /** At most one interface is the first fastest. */
  lemma FirstFastestUnique(nics: seq<NetworkInterface>, k1: int, k2: int)
    requires FirstFastestAmong(nics, |nics|, k1) && FirstFastestAmong(nics, |nics|, k2)
    ensures k1 == k2
  {
  }

  /** Interface `k` beats every eligible interface before it: the scan makes
      it the best so far. */
  ghost predicate IsRecord(nics: seq<NetworkInterface>, k: int)
  {
    0 <= k < |nics| && Eligible(nics[k]) &&
    forall j :: 0 <= j < k && Eligible(nics[j]) ==> nics[j].speed < nics[k].speed
  }

  /** `GetMacAddress`: scans the interfaces, keeping the address of the first
      eligible one strictly faster than the best so far; "" when none is
      eligible. `records` lists, in scan order, the interfaces that replaced
      the best so far: exactly the records, with strictly rising speeds, the
      last of them the one whose address is returned. */
  method GetMacAddress(nics: seq<NetworkInterface>) returns (mac: string, ghost records: seq<int>)
    ensures mac == "" <==> forall i :: 0 <= i < |nics| ==> !Eligible(nics[i])
    ensures mac != "" ==> |mac| >= MinMacAddrLength
    ensures mac != "" ==> exists k :: FirstFastestAmong(nics, |nics|, k) && nics[k].mac == mac
    ensures records == [] <==> mac == ""
    ensures forall k :: k in records <==> IsRecord(nics, k)
    ensures forall a :: 0 <= a < |records| ==> 0 <= records[a] < |nics|
    ensures forall a, b :: 0 <= a < b < |records| ==> records[a] < records[b]
    ensures forall a, b :: 0 <= a < b < |records| ==> nics[records[a]].speed < nics[records[b]].speed
    ensures records != [] ==> FirstFastestAmong(nics, |nics|, records[|records| - 1]) &&
                              mac == nics[records[|records| - 1]].mac
  {
    mac := "";
    var maxSpeed := -1;
    records := [];
    var i := 0;
    while i < |nics|
      invariant 0 <= i <= |nics|
      invariant records == [] ==> mac == "" && maxSpeed == -1
      invariant records == [] <==> forall j :: 0 <= j < i ==> !Eligible(nics[j])
      invariant forall k :: k in records <==> k < i && IsRecord(nics, k)
      invariant forall a :: 0 <= a < |records| ==> 0 <= records[a] < i
      invariant forall a, b :: 0 <= a < b < |records| ==> records[a] < records[b]
      invariant forall a, b :: 0 <= a < b < |records| ==> nics[records[a]].speed < nics[records[b]].speed
      invariant records != [] ==> FirstFastestAmong(nics, i, records[|records| - 1]) &&
                                  mac == nics[records[|records| - 1]].mac &&
                                  maxSpeed == nics[records[|records| - 1]].speed
    {
      var nic := nics[i];
      var tempMac := nic.mac;
      if nic.speed <= maxSpeed || tempMac == "" || |tempMac| < MinMacAddrLength {
        i := i + 1;
        continue;
      }
      maxSpeed := nic.speed;
      mac := tempMac;
      records := records + [i];
      i := i + 1;
    }
  }
}
