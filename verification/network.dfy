/** The network cache of a local device (`XBeeNetwork`): remote devices keyed
    by their 64-bit address, at most one entry per address. */
module XBeeNetwork {
  import opened XBeeModels

  type Registry = map<Address64, RemoteDevice>

  /** Every entry is stored under its own 64-bit address. */
  ghost predicate Keyed(reg: Registry) {
    forall a :: a in reg ==> reg[a].addr64 == a
  }

  /** `addRemoteDevice`: stores `d` unless a device with its 64-bit address is
      already known, and returns the stored device. Entries already present
      are never replaced; the 16-bit address plays no part. */
  function AddRemoteDevice(reg: Registry, d: RemoteDevice): (r: (Registry, RemoteDevice))
    ensures r.0.Keys == reg.Keys + {d.addr64}
    ensures forall a :: a in reg ==> r.0[a] == reg[a]
    ensures r.1 == r.0[d.addr64]
    ensures Keyed(reg) ==> r.1.addr64 == d.addr64
    ensures d.addr64 !in reg ==> r.1 == d
    ensures Keyed(reg) ==> Keyed(r.0)
  {
    if d.addr64 in reg then (reg, reg[d.addr64]) else (reg[d.addr64 := d], d)
  }

  /** Adding a device a second time changes nothing and returns the same entry,
      whatever its other fields. */
  lemma AddRemoteDeviceIdempotent(reg: Registry, d: RemoteDevice, d': RemoteDevice)
    requires d'.addr64 == d.addr64
    ensures AddRemoteDevice(AddRemoteDevice(reg, d).0, d') == AddRemoteDevice(reg, d)
  {
  }

  /** The 64-bit addresses of a sequence of devices. */
  function Addresses(ds: seq<RemoteDevice>): (s: set<Address64>)
    ensures |ds| > 0 ==> ds[0].addr64 in s
  {
    if |ds| == 0 then {} else {ds[0].addr64} + Addresses(ds[1..])
  }

  /** `Addresses` against its meaning: an address is in it exactly when
      some device of the sequence has it. */
  lemma {:induction false} AddressesMembership(ds: seq<RemoteDevice>, a: Address64)
    ensures a in Addresses(ds) <==> exists i :: 0 <= i < |ds| && ds[i].addr64 == a
  {
    if |ds| > 0 {
      AddressesMembership(ds[1..], a);
      if a in Addresses(ds[1..]) {
        var i :| 0 <= i < |ds[1..]| && ds[1..][i].addr64 == a;
        assert ds[i + 1].addr64 == a;
      }
    }
  }
}
