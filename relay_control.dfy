/** The relay board: one output device per relay number and a buzzer. The
    devices live in a dictionary whose iteration order is the order in which
    the relays were configured; here that dictionary is a map together with
    the sequence of its keys in that order. Every call on a device is
    recorded in `log`. */
module RelayBoard {
  import opened Devices

  /** No element appears twice. */
  predicate Distinct(rs: seq<int>) {
    forall i, j :: 0 <= i < j < |rs| ==> rs[i] != rs[j]
  }

  /** The relay numbers of a configuration, in configuration order. */
  function Keys(relayDict: seq<(int, int)>): (ks: seq<int>)
    ensures |ks| == |relayDict|
    ensures forall i :: 0 <= i < |relayDict| ==> ks[i] == relayDict[i].0
  {
    seq(|relayDict|, i requires 0 <= i < |relayDict| => relayDict[i].0)
  }

  /** The board calls that switch each of `rs` on, in order. */
  function Ons(rs: seq<int>): seq<Actuation> {
    seq(|rs|, i requires 0 <= i < |rs| => SwitchedOn(rs[i]))
  }

  /** The board calls that switch each of `rs` off, in order. */
  function Offs(rs: seq<int>): seq<Actuation> {
    seq(|rs|, i requires 0 <= i < |rs| => SwitchedOff(rs[i]))
  }

  /** The board calls that close each of `rs`, in order. */
  function Closes(rs: seq<int>): seq<Actuation> {
    seq(|rs|, i requires 0 <= i < |rs| => RelayClosed(rs[i]))
  }

  /** `rs` with every occurrence of `x` taken out. */
  function Without(rs: seq<int>, x: int): (r: seq<int>)
    ensures forall y :: y in r <==> y in rs && y != x
    ensures Distinct(rs) ==> Distinct(r)
    ensures x !in rs ==> r == rs
    decreases |rs|
  {
    if rs == [] then []
    else if rs[0] == x then Without(rs[1..], x)
    else
      var rest := Without(rs[1..], x);
      if Distinct(rs) then
        assert rs[0] !in rs[1..];
        DistinctCons(rs[0], rest);
        [rs[0]] + rest
      else
        [rs[0]] + rest
  }

  /** Putting an absent element in front keeps the elements distinct. */
  lemma DistinctCons(a: int, s: seq<int>)
    requires a !in s && Distinct(s)
    ensures Distinct([a] + s)
  {
    forall i, j | 0 <= i < j < |s| + 1
      ensures ([a] + s)[i] != ([a] + s)[j]
    {
      assert ([a] + s)[j] == s[j - 1];
    }
  }

  /** Taking out the first of distinct elements leaves the rest. */
  lemma WithoutFirst(rs: seq<int>)
    requires rs != [] && Distinct(rs)
    ensures Without(rs, rs[0]) == rs[1..]
  {
    assert rs[0] !in rs[1..];
  }

  class RelayControl {
    var devices: map<int, int>
    var order: seq<int>
    var log: seq<Actuation>

    /** The key order lists each device exactly once. */
    ghost predicate Valid()
      reads this
    {
      Distinct(order) && forall r :: r in devices <==> r in order
    }

    /** One device per configured relay, on the configured board pin; the
        board starts silent. Relay numbers are dictionary keys, so they are
        distinct. */
    constructor (relayDict: seq<(int, int)>)
      requires Distinct(Keys(relayDict))
      ensures Valid()
      ensures order == Keys(relayDict)
      ensures forall i :: 0 <= i < |relayDict| ==> devices[relayDict[i].0] == relayDict[i].1
      ensures log == []
    {
      order := Keys(relayDict);
      devices := map i | 0 <= i < |relayDict| :: relayDict[i].0 := relayDict[i].1;
      log := [];
      new;
      forall r | r in order ensures r in devices {
        var i :| 0 <= i < |order| && order[i] == r;
        assert relayDict[i].0 == r;
      }
    }

    /** `relay_on`: the relay must be on the board (the dictionary is
        indexed directly). */
    method RelayOn(relay: int)
      requires relay in devices
      modifies this`log
      ensures log == old(log) + [SwitchedOn(relay)]
    {
      log := log + [SwitchedOn(relay)];
    }

    /** `relay_off`: the relay must be on the board. */
    method RelayOff(relay: int)
      requires relay in devices
      modifies this`log
      ensures log == old(log) + [SwitchedOff(relay)]
    {
      log := log + [SwitchedOff(relay)];
    }

    /** `beep`: `repeats` beeps of `duration` seconds, half as long apart. */
    method Beep(duration: real, repeats: int)
      modifies this`log
      ensures log == old(log) + [Beeped(duration, duration / 2.0, repeats)]
    {
      log := log + [Beeped(duration, duration / 2.0, repeats)];
    }

    /** Every relay switched on, in dictionary order. */
    method AllOn()
      requires Valid()
      modifies this`log
      ensures log == old(log) + Ons(order)
    {
      var k := 0;
      while k < |order|
        invariant 0 <= k <= |order|
        invariant log == old(log) + Ons(order[..k])
      {
        RelayOn(order[k]);
        assert Ons(order[..k + 1]) == Ons(order[..k]) + [SwitchedOn(order[k])];
        k := k + 1;
      }
      assert order[..k] == order;
    }

    /** Every relay switched off, in dictionary order. */
    method AllOff()
      requires Valid()
      modifies this`log
      ensures log == old(log) + Offs(order)
    {
      var k := 0;
      while k < |order|
        invariant 0 <= k <= |order|
        invariant log == old(log) + Offs(order[..k])
      {
        RelayOff(order[k]);
        assert Offs(order[..k + 1]) == Offs(order[..k]) + [SwitchedOff(order[k])];
        k := k + 1;
      }
      assert order[..k] == order;
    }

    /** `remove`: a relay on the board is closed and taken out of the
        dictionary; an unknown relay number is ignored. */
    method Remove(relay: int)
      requires Valid()
      modifies this`devices, this`order, this`log
      ensures Valid()
      ensures relay !in devices
      ensures relay in old(devices) ==>
        log == old(log) + [RelayClosed(relay)] &&
        devices == old(devices) - {relay} && order == Without(old(order), relay)
      ensures relay !in old(devices) ==>
        log == old(log) && devices == old(devices) && order == old(order)
    {
      if relay in devices {
        log := log + [RelayClosed(relay)];
        devices := devices - {relay};
        order := Without(order, relay);
      }
    }

    /** `clear`: every relay closed and removed, in dictionary order. */
    method Clear()
      requires Valid()
      modifies this`devices, this`order, this`log
      ensures Valid()
      ensures devices == map[] && order == []
      ensures log == old(log) + Closes(old(order))
    {
      var keys := order;
      var k := 0;
      while k < |keys|
        invariant 0 <= k <= |keys|
        invariant Valid()
        invariant order == keys[k..]
        invariant log == old(log) + Closes(keys[..k])
      {
        WithoutFirst(order);
        Remove(keys[k]);
        assert Closes(keys[..k + 1]) == Closes(keys[..k]) + [RelayClosed(keys[k])];
        k := k + 1;
      }
      assert keys[..k] == keys;
      assert order == [];
      assert forall r :: r in devices.Keys ==> r in order;
      assert devices.Keys == {};
    }

    /** `stop`: every relay switched off. */
    method Stop()
      requires Valid()
      modifies this`log
      ensures log == old(log) + Offs(order)
    {
      AllOff();
    }

    /** `close`: every relay switched off, then every relay closed and
        removed, then the buzzer closed. */
    method Close()
      requires Valid()
      modifies this`devices, this`order, this`log
      ensures Valid()
      ensures devices == map[] && order == []
      ensures log == old(log) + Offs(old(order)) + Closes(old(order)) + [BuzzerClosed]
    {
      AllOff();
      Clear();
      log := log + [BuzzerClosed];
    }
  }
}
