/**
 * The DDS server's device watcher: a list of devices seeded from the devices
 * connected at start-up and then kept current by a device-changed handler
 * that first drops every device the event reports removed and then appends
 * the event's new devices, calling back before each change.
 *
 * Devices are values of any type with equality; the callbacks are observed
 * as a trace of `Event`s, each carrying the list as it was when the
 * callback ran.
 */
module DeviceWatcher {

  /** One call of `add_device_cb` or `remove_device_cb`, with the list at that moment. */
  datatype Event<D> = Added(device: D, listBefore: seq<D>) | Removed(device: D, listBefore: seq<D>)

  /** The elements of `s` that satisfy `p`, in their order in `s`. */
  function Filter<D>(p: D -> bool, s: seq<D>): seq<D> {
    if |s| == 0 then [] else (if p(s[0]) then [s[0]] else []) + Filter(p, s[1..])
  }

  function Not<D>(p: D -> bool): D -> bool {
    x => !p(x)
  }

  function And<D>(p: D -> bool, q: D -> bool): D -> bool {
    x => p(x) && q(x)
  }

  function Differs<D(==)>(d: D): D -> bool {
    x => x != d
  }

  function NotIn<D(==)>(ds: seq<D>): D -> bool {
    x => x !in ds
  }

  /** `erase(remove_if(begin, end, == d), end)`: every copy of `d` dropped. */
  function Erase<D(==)>(s: seq<D>, d: D): seq<D> {
    Filter(Differs(d), s)
  }

  /** The list after erasing each device of `ds` in turn. */
  function EraseAll<D(==)>(s: seq<D>, ds: seq<D>): seq<D>
    decreases |ds|
  {
    if |ds| == 0 then s else Erase(EraseAll(s, ds[..|ds| - 1]), ds[|ds| - 1])
  }

  /** The remove callbacks of the removal phase: one per device of `ds`, each before its erase. */
  function RemovalEvents<D(==)>(list: seq<D>, ds: seq<D>): seq<Event<D>>
    decreases |ds|
  {
    if |ds| == 0 then []
    else RemovalEvents(list, ds[..|ds| - 1]) + [Removed(ds[|ds| - 1], EraseAll(list, ds[..|ds| - 1]))]
  }

  /** The add callbacks of appending `ns` to `list`: one per device, each before its push. */
  function AdditionEvents<D>(list: seq<D>, ns: seq<D>): seq<Event<D>>
    decreases |ns|
  {
    if |ns| == 0 then []
    else AdditionEvents(list, ns[..|ns| - 1]) + [Added(ns[|ns| - 1], list + ns[..|ns| - 1])]
  }

  ghost predicate NoDuplicates<D>(s: seq<D>) {
    forall i, j | 0 <= i < j < |s| :: s[i] != s[j]
  }

  lemma {:induction false} FilterAppend<D>(p: D -> bool, a: seq<D>, b: seq<D>)
    ensures Filter(p, a + b) == Filter(p, a) + Filter(p, b)
    decreases |a|
  {
    if |a| == 0 {
      assert a + b == b;
    } else {
      assert (a + b)[1..] == a[1..] + b;
      FilterAppend(p, a[1..], b);
    }
  }

  /** An element survives the filter exactly when it occurs in the input and satisfies `p`. */
  lemma {:induction false} FilterMembership<D>(p: D -> bool, s: seq<D>, x: D)
    ensures x in Filter(p, s) <==> x in s && p(x)
    decreases |s|
  {
    if |s| > 0 {
      FilterMembership(p, s[1..], x);
      assert s == [s[0]] + s[1..];
    }
  }

  /** Every copy of an element satisfying `p` is kept, and no copy of any other. */
  lemma {:induction false} FilterCount<D>(p: D -> bool, s: seq<D>, x: D)
    ensures multiset(Filter(p, s))[x] == if p(x) then multiset(s)[x] else 0
    decreases |s|
  {
    if |s| > 0 {
      FilterCount(p, s[1..], x);
      assert s == [s[0]] + s[1..];
      assert multiset(s) == multiset([s[0]]) + multiset(s[1..]);
    }
  }

  lemma {:induction false} FilterCongruence<D>(p: D -> bool, q: D -> bool, s: seq<D>)
    requires forall x | x in s :: p(x) == q(x)
    ensures Filter(p, s) == Filter(q, s)
    decreases |s|
  {
    if |s| > 0 {
      assert s[0] in s;
      assert forall x | x in s[1..] :: x in s;
      FilterCongruence(p, q, s[1..]);
    }
  }

  /** Filtering twice is filtering once by the conjunction. */
  lemma {:induction false} FilterComposition<D>(p: D -> bool, q: D -> bool, s: seq<D>)
    ensures Filter(q, Filter(p, s)) == Filter(And(p, q), s)
    decreases |s|
  {
    if |s| > 0 {
      var head := if p(s[0]) then [s[0]] else [];
      FilterComposition(p, q, s[1..]);
      FilterAppend(q, head, Filter(p, s[1..]));
      if p(s[0]) {
        assert head[1..] == [];
      }
    }
  }

  lemma {:induction false} FilterNoDuplicates<D>(p: D -> bool, s: seq<D>)
    requires NoDuplicates(s)
    ensures NoDuplicates(Filter(p, s))
    decreases |s|
  {
    if |s| > 0 {
      var rest := Filter(p, s[1..]);
      assert NoDuplicates(s[1..]) by {
        forall i, j | 0 <= i < j < |s[1..]| ensures s[1..][i] != s[1..][j] {
          assert s[1..][i] == s[i + 1] && s[1..][j] == s[j + 1];
        }
      }
      FilterNoDuplicates(p, s[1..]);
      if p(s[0]) {
        FilterMembership(p, s[1..], s[0]);
        assert s[0] !in s[1..] by {
          forall k | 0 <= k < |s[1..]| ensures s[1..][k] != s[0] {
            assert s[1..][k] == s[k + 1];
          }
        }
        var r := [s[0]] + rest;
        forall i, j | 0 <= i < j < |r| ensures r[i] != r[j] {
          if i == 0 {
            assert r[j] == rest[j - 1];
            assert rest[j - 1] in rest;
          } else {
            assert r[i] == rest[i - 1] && r[j] == rest[j - 1];
          }
        }
      }
    }
  }

  /** Erasing the devices of `ds` one by one keeps exactly the entries not in `ds`, in order. */
  lemma {:induction false} EraseAllIsFilter<D>(s: seq<D>, ds: seq<D>)
    ensures EraseAll(s, ds) == Filter(NotIn(ds), s)
    decreases |ds|
  {
    if |ds| == 0 {
      FilterCongruence(NotIn(ds), x => true, s);
      KeepAll(s);
    } else {
      var init, d := ds[..|ds| - 1], ds[|ds| - 1];
      assert ds == init + [d];
      EraseAllIsFilter(s, init);
      FilterComposition(NotIn(init), Differs(d), s);
      FilterCongruence(And(NotIn(init), Differs(d)), NotIn(ds), s);
    }
  }

  lemma {:induction false} KeepAll<D>(s: seq<D>)
    ensures Filter(x => true, s) == s
    decreases |s|
  {
    if |s| > 0 {
      KeepAll(s[1..]);
      assert s == [s[0]] + s[1..];
    }
  }

  /**
   * The removal phase leaves exactly the entries the event does not report
   * removed, in their original order: no flagged entry and no copy of a
   * flagged device survives, and every unflagged entry does.
   */
  lemma RemovalPhaseKeepsUnflagged<D>(wasRemoved: D -> bool, list: seq<D>)
    ensures EraseAll(list, Filter(wasRemoved, list)) == Filter(Not(wasRemoved), list)
  {
    var flagged := Filter(wasRemoved, list);
    EraseAllIsFilter(list, flagged);
    forall x | x in list
      ensures NotIn(flagged)(x) == Not(wasRemoved)(x)
    {
      FilterMembership(wasRemoved, list, x);
    }
    FilterCongruence(NotIn(flagged), Not(wasRemoved), list);
  }

  /** What survives the removal phase, entry by entry. */
  lemma SurvivorCount<D>(wasRemoved: D -> bool, list: seq<D>, x: D)
    ensures multiset(EraseAll(list, Filter(wasRemoved, list)))[x] == if wasRemoved(x) then 0 else multiset(list)[x]
  {
    RemovalPhaseKeepsUnflagged(wasRemoved, list);
    FilterCount(Not(wasRemoved), list, x);
  }

  lemma {:induction false} RemovalEventsLength<D>(list: seq<D>, ds: seq<D>)
    ensures |RemovalEvents(list, ds)| == |ds|
    decreases |ds|
  {
    if |ds| > 0 {
      RemovalEventsLength(list, ds[..|ds| - 1]);
    }
  }

  /** The k-th remove callback is for the k-th device to remove, with the list erased of those before it. */
  lemma {:induction false} RemovalEventsAt<D>(list: seq<D>, ds: seq<D>, k: int)
    requires 0 <= k < |ds|
    ensures |RemovalEvents(list, ds)| == |ds|
    ensures RemovalEvents(list, ds)[k] == Removed(ds[k], EraseAll(list, ds[..k]))
    decreases |ds|
  {
    RemovalEventsLength(list, ds);
    var init := ds[..|ds| - 1];
    if k < |ds| - 1 {
      RemovalEventsAt(list, init, k);
      assert init[..k] == ds[..k];
    }
  }

  lemma {:induction false} AdditionEventsLength<D>(list: seq<D>, ns: seq<D>)
    ensures |AdditionEvents(list, ns)| == |ns|
    decreases |ns|
  {
    if |ns| > 0 {
      AdditionEventsLength(list, ns[..|ns| - 1]);
    }
  }

  /** The k-th add callback is for the k-th new device, with the list holding the ones before it. */
  lemma {:induction false} AdditionEventsAt<D>(list: seq<D>, ns: seq<D>, k: int)
    requires 0 <= k < |ns|
    ensures |AdditionEvents(list, ns)| == |ns|
    ensures AdditionEvents(list, ns)[k] == Added(ns[k], list + ns[..k])
    decreases |ns|
  {
    AdditionEventsLength(list, ns);
    var init := ns[..|ns| - 1];
    if k < |ns| - 1 {
      AdditionEventsAt(list, init, k);
      assert init[..k] == ns[..k];
    }
  }

  /** In one change event's callbacks, every removal comes before every addition. */
  lemma RemovalsBeforeAdditions<D>(list: seq<D>, ds: seq<D>, base: seq<D>, ns: seq<D>)
    ensures var t := RemovalEvents(list, ds) + AdditionEvents(base, ns);
      |t| == |ds| + |ns| && forall k | 0 <= k < |t| :: t[k].Removed? <==> k < |ds|
  {
    var t := RemovalEvents(list, ds) + AdditionEvents(base, ns);
    RemovalEventsLength(list, ds);
    AdditionEventsLength(base, ns);
    forall k | 0 <= k < |t|
      ensures t[k].Removed? <==> k < |ds|
    {
      if k < |ds| {
        RemovalEventsAt(list, ds, k);
      } else {
        AdditionEventsAt(base, ns, k - |ds|);
      }
    }
  }

  /**
   * When the list holds each device once, every remove callback runs while
   * its device is still listed, and the erase that follows drops it.
   */
  lemma RemovedDeviceStillListed<D>(wasRemoved: D -> bool, list: seq<D>, k: int)
    requires NoDuplicates(list)
    requires 0 <= k < |Filter(wasRemoved, list)|
    ensures |RemovalEvents(list, Filter(wasRemoved, list))| == |Filter(wasRemoved, list)|
    ensures var e := RemovalEvents(list, Filter(wasRemoved, list))[k];
      e.device in e.listBefore && e.device !in Erase(e.listBefore, e.device)
  {
    var flagged := Filter(wasRemoved, list);
    RemovalEventsLength(list, flagged);
    RemovalEventsAt(list, flagged, k);
    var d := flagged[k];
    var before := EraseAll(list, flagged[..k]);
    FilterMembership(wasRemoved, list, d);
    FilterNoDuplicates(wasRemoved, list);
    assert d !in flagged[..k] by {
      forall i | 0 <= i < k ensures flagged[..k][i] != d {
        assert flagged[..k][i] == flagged[i];
      }
    }
    EraseAllIsFilter(list, flagged[..k]);
    FilterMembership(NotIn(flagged[..k]), list, d);
    FilterMembership(Differs(d), before, d);
  }

  /**
   * Callbacks are per list entry, not per device: a device listed twice is
   * reported removed twice, the second time after it is already gone.
   */
  lemma DuplicateEntryRemovedTwice<D>(d: D)
    ensures Filter(Not(Differs(d)), [d, d]) == [d, d]
    ensures RemovalEvents([d, d], [d, d]) == [Removed(d, [d, d]), Removed(d, [])]
  {
    assert [d, d][1..] == [d] && [d][1..] == [] && [d, d][..1] == [d] && [d, d][..0] == [];
    assert !Differs(d)(d) && Not(Differs(d))(d);
    assert Filter(Differs(d), [d]) == [];
    assert Filter(Not(Differs(d)), [d]) == [d];
    assert Filter(Differs(d), [d, d]) == [];
    assert EraseAll([d, d], []) == [d, d];
    assert EraseAll([d, d], [d]) == [];
    assert RemovalEvents([d, d], []) == [];
    assert RemovalEvents([d, d], [d]) == [Removed(d, [d, d])];
  }

  class LrsDeviceWatcher<D(==)> {
    /** `_rs_device_list`. */
    var deviceList: seq<D>
    /** Whether the list is still owned, so that the handler's weak reference can be locked. */
    var listAlive: bool
    /** Whether `run` has registered the device-changed handler. */
    var handlerRegistered: bool
    /** Every callback made so far, oldest first. */
    var events: seq<Event<D>>

    constructor ()
      ensures deviceList == [] && listAlive && !handlerRegistered && events == []
    {
      deviceList, listAlive, handlerRegistered, events := [], true, false, [];
    }

    /** Calls back for each device in turn and appends it, keeping the given order. */
    method AddDevices(devices: seq<D>)
      modifies this`deviceList, this`events
      ensures deviceList == old(deviceList) + devices
      ensures events == old(events) + AdditionEvents(old(deviceList), devices)
    {
      var i := 0;
      while i < |devices|
        invariant 0 <= i <= |devices|
        invariant deviceList == old(deviceList) + devices[..i]
        invariant events == old(events) + AdditionEvents(old(deviceList), devices[..i])
      {
        assert devices[..i + 1][..i] == devices[..i];
        events := events + [Added(devices[i], deviceList)];
        deviceList := deviceList + [devices[i]];
        i := i + 1;
      }
      assert devices[..i] == devices;
    }

    /** `notify_connected_devices_on_wake_up`, given the result of `query_devices`. */
    method NotifyConnectedDevicesOnWakeUp(connected: seq<D>)
      modifies this`deviceList, this`events
      ensures deviceList == old(deviceList) + connected
      ensures events == old(events) + AdditionEvents(old(deviceList), connected)
    {
      AddDevices(connected);
    }

    /** `run`: the wake-up notification, then registration of the device-changed handler. */
    method Run(connected: seq<D>)
      modifies this`deviceList, this`events, this`handlerRegistered
      ensures handlerRegistered
      ensures deviceList == old(deviceList) + connected
      ensures events == old(events) + AdditionEvents(old(deviceList), connected)
    {
      NotifyConnectedDevicesOnWakeUp(connected);
      handlerRegistered := true;
    }

    /** Destroying the watcher: the list goes away and the handler's weak reference expires. */
    method Release()
      modifies this`listAlive
      ensures !listAlive
    {
      listAlive := false;
    }

    /** The first loop of the handler: the entries `wasRemoved` flags, in list order. */
    method CollectRemoved(wasRemoved: D -> bool) returns (toRemove: seq<D>)
      ensures toRemove == Filter(wasRemoved, deviceList)
    {
      toRemove := [];
      var i := 0;
      while i < |deviceList|
        invariant 0 <= i <= |deviceList|
        invariant toRemove == Filter(wasRemoved, deviceList[..i])
      {
        assert deviceList[..i + 1] == deviceList[..i] + [deviceList[i]];
        FilterAppend(wasRemoved, deviceList[..i], [deviceList[i]]);
        assert [deviceList[i]][1..] == [];
        if wasRemoved(deviceList[i]) {
          toRemove := toRemove + [deviceList[i]];
        }
        i := i + 1;
      }
      assert deviceList[..i] == deviceList;
    }

    /** The second loop of the handler: for each device, the remove callback and then its erase. */
    method RemoveDevices(toRemove: seq<D>)
      modifies this`deviceList, this`events
      ensures deviceList == EraseAll(old(deviceList), toRemove)
      ensures events == old(events) + RemovalEvents(old(deviceList), toRemove)
    {
      var k := 0;
      while k < |toRemove|
        invariant 0 <= k <= |toRemove|
        invariant deviceList == EraseAll(old(deviceList), toRemove[..k])
        invariant events == old(events) + RemovalEvents(old(deviceList), toRemove[..k])
      {
        assert toRemove[..k + 1][..k] == toRemove[..k];
        var d := toRemove[k];
        events := events + [Removed(d, deviceList)];
        deviceList := Erase(deviceList, d);
        k := k + 1;
      }
      assert toRemove[..k] == toRemove;
    }

    /**
     * The device-changed handler, given the event's `was_removed` test and
     * its new devices. With the list gone it does nothing; otherwise it
     * collects the flagged entries in list order, calls back and erases each,
     * and then calls back and appends each new device.
     */
    method DevicesChanged(wasRemoved: D -> bool, newDevices: seq<D>)
      requires handlerRegistered
      modifies this`deviceList, this`events
      ensures !old(listAlive) ==> unchanged(this)
      ensures old(listAlive) ==>
        var flagged := Filter(wasRemoved, old(deviceList));
        && deviceList == Filter(Not(wasRemoved), old(deviceList)) + newDevices
        && events == old(events) + RemovalEvents(old(deviceList), flagged)
                     + AdditionEvents(EraseAll(old(deviceList), flagged), newDevices)
    {
      if !listAlive {
        return;
      }
      var toRemove := CollectRemoved(wasRemoved);
      ghost var list := deviceList;
      RemoveDevices(toRemove);
      RemovalPhaseKeepsUnflagged(wasRemoved, list);
      AddDevices(newDevices);
    }
  }
}
