/** A ticket's device list: at most three devices, distinct keys, oldest authorization first. */
module Devices {
  import opened Common
  import opened Ledger

  predicate Ordered(ds: seq<Device>) {
    forall i, j | 0 <= i < j < |ds| :: ds[i].key != ds[j].key && ds[i].authorizedAt <= ds[j].authorizedAt
  }

  predicate DevicesOk(ds: seq<Device>, now: nat) {
    && |ds| <= MAX_DEVICES
    && (forall i | 0 <= i < |ds| :: ds[i].authorizedAt <= now && ds[i].expiresAt == ds[i].authorizedAt + DEVICE_LIFETIME_MS)
    && Ordered(ds)
  }

  predicate Has(ds: seq<Device>, key: string) {
    exists i :: 0 <= i < |ds| && ds[i].key == key
  }

  /** The key has a device that is listed and not yet expired. */
  predicate InUse(ds: seq<Device>, key: string, now: nat) {
    exists i :: 0 <= i < |ds| && ds[i].key == key && ds[i].expiresAt > now
  }

  /** The head stays in front of any ordered choice from the tail. */
  lemma HeadAndRest(ds: seq<Device>, rest: seq<Device>)
    requires ds != [] && (forall d | d in rest :: d in ds[1..])
    ensures Ordered(ds) && Ordered(rest) ==> Ordered([ds[0]] + rest)
    ensures Ordered(ds) ==> Ordered(ds[1..])
  {
    if Ordered(ds) {
      assert forall k | 0 <= k < |ds| - 1 :: ds[1..][k] == ds[k + 1];
      forall d | d in rest
        ensures ds[0].key != d.key && ds[0].authorizedAt <= d.authorizedAt
      {
        var k :| 0 <= k < |ds| - 1 && ds[1..][k] == d;
      }
      assert forall j | 0 <= j < |rest| :: rest[j] in rest;
    }
  }

  /** What `Live` keeps: the unexpired devices with other keys, in their order. */
  lemma {:induction false} LiveKeeps(ds: seq<Device>, now: nat, except: string)
    ensures forall d :: d in Live(ds, now, except) <==> d in ds && d.expiresAt > now && d.key != except
    ensures |Live(ds, now, except)| <= |ds|
    ensures Ordered(ds) ==> Ordered(Live(ds, now, except))
  {
    if ds != [] {
      LiveKeeps(ds[1..], now, except);
      assert ds == [ds[0]] + ds[1..];
      HeadAndRest(ds, Live(ds[1..], now, except));
    }
  }

  lemma {:induction false} WithoutKeeps(ds: seq<Device>, key: string)
    ensures forall d :: d in Without(ds, key) <==> d in ds && d.key != key
    ensures |Without(ds, key)| <= |ds|
    ensures Ordered(ds) ==> Ordered(Without(ds, key))
  {
    if ds != [] {
      WithoutKeeps(ds[1..], key);
      assert ds == [ds[0]] + ds[1..];
      HeadAndRest(ds, Without(ds[1..], key));
    }
  }

  lemma LatestGoesLast(ds: seq<Device>, d: Device, now: nat)
    requires DevicesOk(ds, now) && |ds| < MAX_DEVICES
    requires d.authorizedAt == now && d.expiresAt == now + DEVICE_LIFETIME_MS
    requires forall x | x in ds :: x.key != d.key
    ensures DevicesOk(ds + [d], now) && InUse(ds + [d], d.key, now)
  {
    assert forall i | 0 <= i < |ds| :: ds[i] in ds;
    assert (ds + [d])[|ds|] == d;
  }

  lemma TailIsOk(ds: seq<Device>, now: nat)
    requires DevicesOk(ds, now) && ds != []
    ensures DevicesOk(ds[1..], now) && |ds[1..]| < MAX_DEVICES
    ensures forall x | x in ds[1..] :: x in ds
  {
    assert forall k | 0 <= k < |ds| - 1 :: ds[1..][k] == ds[k + 1];
  }

  lemma LiveIsOk(ds: seq<Device>, now: nat, except: string)
    requires DevicesOk(ds, now)
    ensures DevicesOk(Live(ds, now, except), now)
  {
    LiveKeeps(ds, now, except);
    var live := Live(ds, now, except);
    forall i | 0 <= i < |live|
      ensures live[i] in ds
    {
      assert live[i] in live;
    }
  }

  /** Adding, renewing or replacing a device keeps the list well formed, with the new device last. */
  lemma AdditionKeepsDevices(t: Ticket, key: string, certificate: string, now: nat)
    requires DevicesOk(t.devices, now) && t.deviceEpoch <= U32_MAX
    requires WithDevice(t, key, certificate, now).Some?
    ensures var n := WithDevice(t, key, certificate, now).value;
            && DevicesOk(n.devices, now) && n.deviceEpoch <= U32_MAX
            && InUse(n.devices, key, now)
            && n.devices[|n.devices| - 1] == NewDevice(key, certificate, now)
  {
    LiveKeeps(t.devices, now, key);
    LiveIsOk(t.devices, now, key);
    var live := Live(t.devices, now, key);
    var kept := if |live| == MAX_DEVICES then live[1..] else live;
    if |live| == MAX_DEVICES {
      TailIsOk(live, now);
    }
    LatestGoesLast(kept, NewDevice(key, certificate, now), now);
    assert WithDevice(t, key, certificate, now).value.devices == kept + [NewDevice(key, certificate, now)];
  }

  lemma RevocationKeepsDevices(t: Ticket, key: string, now: nat)
    requires DevicesOk(t.devices, now) && WithoutDevice(t, key).Some? && t.deviceEpoch <= U32_MAX
    ensures var n := WithoutDevice(t, key).value;
            DevicesOk(n.devices, now) && n.deviceEpoch <= U32_MAX && !Has(n.devices, key)
  {
    WithoutKeeps(t.devices, key);
    var rest := Without(t.devices, key);
    forall i | 0 <= i < |rest|
      ensures rest[i] in t.devices && rest[i].key != key
    {
      assert rest[i] in rest;
    }
  }
}
