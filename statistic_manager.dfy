/** The device wear-statistics trackers and the manager that refreshes them
    once per scan. The watched device is not modelled: each call receives
    the state the device reports at that moment. */
module Statistics {
  import opened Params
  import opened StatisticSpec

  /** Counts how many times one device switched on, and persists the count
      in slot 1 of its own saved-parameter bank. */
  class DeviceWithStatistic {
    var par: SavedParams
    var workingTime: int
    const deviceResource: int
    var prevDeviceState: int
    var curStat: int

    /** The count is mirrored in slot 1 of a three-slot bank; the working
        time is never changed after construction. */
    ghost predicate Valid()
      reads this
    {
      |par.values| == BankSize + 1 && Synced(State()) && workingTime == 0
    }

    /** The fields that observing the device changes. */
    ghost function State(): StatState
      reads this
    {
      StatState(prevDeviceState, curStat, par)
    }

    /** Start tracking a device now in state `deviceState`, with a bank
        whose three slots were read back from the persistent store as
        `stored`. The count resumes from the stored slot 1. */
    constructor (deviceState: int, deviceResource: int, stored: seq<int>)
      requires |stored| == BankSize
      ensures Valid()
      ensures State() == Initial(deviceState, stored)
      ensures prevDeviceState == deviceState && curStat == stored[0]
      ensures workingTime == 0 && this.deviceResource == deviceResource
      ensures par.log == []
    {
      var bank := Load(stored);
      par := bank;
      workingTime := 0;
      this.deviceResource := deviceResource;
      prevDeviceState := deviceState;
      curStat := bank.values[StatSlot];
    }

    method GetCurDeviceStat() returns (r: int)
      requires Valid()
      ensures r == curStat && r == par.values[StatSlot]
    {
      r := curStat;
    }

    method GetDeviceWorkingTime() returns (r: int)
      requires Valid()
      ensures r == workingTime && r == 0
    {
      r := workingTime;
    }

    /** Look at the device, now in state `s`: count a switch-on edge and
        persist the new count; always remember `s` as the previous state. */
    method CheckStateChanges(s: int)
      requires Valid()
      modifies this
      ensures Valid()
      ensures State() == Observe(old(State()), s)
      ensures prevDeviceState == s
      ensures curStat == if old(prevDeviceState) == 0 && s != 0 then old(curStat) + 1 else old(curStat)
      ensures par.log ==
        if old(prevDeviceState) == 0 && s != 0 then old(par.log) + [SaveCall(StatSlot, curStat)]
        else old(par.log)
      ensures workingTime == old(workingTime)
    {
      if prevDeviceState != s && prevDeviceState == 0 {
        prevDeviceState := s;
        curStat := curStat + 1;
        par := par.Save(StatSlot, curStat);
      } else {
        prevDeviceState := s;
      }
    }
  }

  /** The ordered list of trackers, refreshed together once per scan. */
  class StatisticManager {
    var devsWithStat: seq<DeviceWithStatistic>

    /** Every tracker is a separate object and keeps its own invariant. */
    ghost predicate Valid()
      reads this, devsWithStat
    {
      (forall i, j :: 0 <= i < j < |devsWithStat| ==> devsWithStat[i] != devsWithStat[j]) &&
      (forall i :: 0 <= i < |devsWithStat| ==> devsWithStat[i].Valid())
    }

    /** The trackers' states, in list order. */
    ghost function Snapshot(): (r: seq<StatState>)
      reads this, devsWithStat
      ensures |r| == |devsWithStat|
    {
      seq(|devsWithStat|, i reads this, devsWithStat requires 0 <= i < |devsWithStat| =>
        devsWithStat[i].State())
    }

    constructor ()
      ensures Valid() && devsWithStat == []
    {
      devsWithStat := [];
    }

    /** Start tracking one more device, at the end of the list. */
    method AddNewDevWithStat(deviceState: int, deviceResource: int, stored: seq<int>)
      requires Valid()
      requires |stored| == BankSize
      modifies this
      ensures Valid()
      ensures |devsWithStat| == |old(devsWithStat)| + 1
      ensures devsWithStat[..|old(devsWithStat)|] == old(devsWithStat)
      ensures fresh(devsWithStat[|old(devsWithStat)|])
      ensures devsWithStat[|old(devsWithStat)|].deviceResource == deviceResource
      ensures Snapshot() == old(Snapshot()) + [Initial(deviceState, stored)]
    {
      var newDev := new DeviceWithStatistic(deviceState, deviceResource, stored);
      devsWithStat := devsWithStat + [newDev];
    }

    /** One scan: tracker `i` observes its device in state `states[i]`.
        The list itself is left as it is. */
    method Evaluate(states: seq<int>)
      requires Valid()
      requires |states| == |devsWithStat|
      modifies devsWithStat
      ensures Valid()
      ensures devsWithStat == old(devsWithStat)
      ensures Snapshot() == Scan(old(Snapshot()), states)
    {
      ghost var before := Snapshot();
      var i := 0;
      while i < |devsWithStat|
        invariant 0 <= i <= |devsWithStat|
        invariant Valid()
        invariant forall k :: 0 <= k < |devsWithStat| ==> Tracked(before[k])
        invariant forall k :: 0 <= k < i ==> devsWithStat[k].State() == Observe(before[k], states[k])
        invariant forall k :: i <= k < |devsWithStat| ==> devsWithStat[k].State() == before[k]
      {
        devsWithStat[i].CheckStateChanges(states[i]);
        i := i + 1;
      }
    }
  }
}
