# Device wear statistics of the PAC controller

This project models the device wear-statistics counter of the PAC
process-automation controller (`PAC/common/statistic_manager.cpp`).

A `device_with_statistic` watches one field device and counts how many
times it switches on, that is, how often its state goes from `0` to any
non-zero value. It remembers the last state it saw and keeps the count in
`cur_stat`. It resumes the count from slot 1 of its own three-slot bank of
saved (non-volatile) parameters, and it writes the new count back to that
slot each time the count goes up. The `statistic_manager` keeps the trackers
in an ordered list, appends new ones, and refreshes all of them once per
controller scan.

Files:

- `params.dfy` (module `Params`): the saved-parameter bank. It is a value
  holding the slots (index 0 reserved) and the log of `save(idx, value)`
  requests sent to the persistent store.
- `statistic_spec.dfy` (module `StatisticSpec`): the counter as a pure state
  machine (`Observe`), runs of observations (`Run`), and scans of the whole
  list (`Scan`, `Scans`). It holds the lemmas about them.
- `statistic_manager.dfy` (module `Statistics`): the two classes. Each method
  updates the object's fields in place and is proved against the pure
  functions above.

The watched device is not modelled. Each call takes the state
`get_state()` would report as an integer argument. In `Evaluate`, `states[i]`
is the state of tracker `i`'s device.

The bank's contents at start-up come from the persistent store, which is
outside this model. They are the constructor's `stored` argument.
`saved_params_float` has only a declaration in
`PAC/common/toloa++/pkg/PAC_dev.hh`. Its `save(idx, value)` is modelled as its
doc comment describes it: store the value in slot `idx` and persist it
(recorded here as one log entry).

## Model

| member | source | states |
|---|---|---|
| `Params.SavedParams.Save` | PAC/common/toloa++/pkg/PAC_dev.hh:1160-1166 | saving writes exactly slot `idx`, leaves every other slot as it was, and adds exactly one entry `(idx, value)` to the persisted-write log |
| `Params.Load` | PAC/common/statistic_manager.cpp:6 | a freshly built bank of `n` slots holds the stored values at indices 1..n and has persisted nothing yet |
| `StatisticSpec.Counted` | PAC/common/statistic_manager.cpp:30 | the source's guard "state differs from the previous one and the previous one is 0" holds exactly on a switch-on edge (`prev == 0 && s != 0`) |
| `StatisticSpec.Initial` | PAC/common/statistic_manager.cpp:5-11 | a new tracker's previous state is the device's state and its count is stored slot 1; nothing is persisted, and the bank agrees with the count |
| `StatisticSpec.Observe` | PAC/common/statistic_manager.cpp:28-40 | one state check keeps the bank's count slot in place |
| `StatisticSpec.CountingRule` | PAC/common/statistic_manager.cpp:28-40 | after observing `s`, the previous state is `s`; on a switch-on edge the count is one higher, exactly one save of the new count to slot 1 is logged and the slot holds it; otherwise the count and the whole bank, log included, are unchanged |
| `StatisticSpec.NonEdgesNeverCount` | PAC/common/statistic_manager.cpp:30 | staying at 0, staying non-zero, switching off, or moving between non-zero states changes neither the count nor the bank |
| `StatisticSpec.ObserveKeepsSynced` | PAC/common/statistic_manager.cpp:33-34 | if the persisted slot equals the count before a check, it still does after it |
| `StatisticSpec.Run` | PAC/common/statistic_manager.cpp:28-40 | any sequence of state checks keeps the bank's count slot |
| `StatisticSpec.RunPrev` | PAC/common/statistic_manager.cpp:32-38 | after a sequence of checks the remembered state is the last one observed, or the construction-time state if there were none |
| `StatisticSpec.RunCount` | PAC/common/statistic_manager.cpp:28-40 | over any sequence of observed states, the final count is the initial count plus the number of positions `i` where the state before `i` (the construction state at `i = 0`) is 0 and state `i` is non-zero; the persisted-write log grows by exactly that many saves to slot 1, carrying the counts initial+1, initial+2, … in order |
| `StatisticSpec.CountNeverDecreases` | PAC/common/statistic_manager.cpp:28-40 | the count after any prefix of a run is at most the count after any longer prefix |
| `StatisticSpec.RunKeepsSynced` | PAC/common/statistic_manager.cpp:9-10 | starting from construction, where the count is read from slot 1, the persisted slot equals the in-memory count after every run |
| `StatisticSpec.Scan` | PAC/common/statistic_manager.cpp:72-78 | one evaluation yields one tracker state per tracker, in the same order, each with its count slot |
| `StatisticSpec.Scans` | PAC/common/statistic_manager.cpp:72-78 | any number of evaluations keeps the list length and every tracker's count slot |
| `StatisticSpec.ScansColumn` | PAC/common/statistic_manager.cpp:72-78 | after any number of evaluations, tracker `i` is exactly what running it alone over its own device's observations gives; trackers never affect each other |
| `StatisticSpec.ScansCount` | PAC/common/statistic_manager.cpp:72-78 | after any number of evaluations, tracker `i`'s count is its initial count plus the number of rounds in which its device switched on |
| `Statistics.DeviceWithStatistic.constructor` | PAC/common/statistic_manager.cpp:5-11 | sets the previous state to the device's state, the count to stored slot 1, the working time to 0, and records the device resource; nothing is persisted |
| `Statistics.DeviceWithStatistic.GetCurDeviceStat` | PAC/common/statistic_manager.cpp:13-16 | returns the count, which equals the persisted slot 1, and changes nothing |
| `Statistics.DeviceWithStatistic.GetDeviceWorkingTime` | PAC/common/statistic_manager.cpp:18-21 | returns the working time, which is always 0, and changes nothing |
| `Statistics.DeviceWithStatistic.CheckStateChanges` | PAC/common/statistic_manager.cpp:28-40 | the new fields are `Observe` of the old ones: the previous state becomes `s`; the count goes up by one exactly on a switch-on edge, with exactly one save of the new count to slot 1; otherwise the log is unchanged; the working time is unchanged |
| `Statistics.StatisticManager.constructor` | PAC/common/statistic_manager.cpp:51-54 | the manager starts with an empty tracker list |
| `Statistics.StatisticManager.AddNewDevWithStat` | PAC/common/statistic_manager.cpp:65-70 | appends exactly one freshly built tracker at the end; the existing entries, their order and their states are unchanged |
| `Statistics.StatisticManager.Evaluate` | PAC/common/statistic_manager.cpp:72-78 | the list object sequence is unchanged, and every tracker's new state is `Observe` of its old state with its own device's state, which is one state check per tracker; trackers stay distinct and valid |

## Left out

- `get_cur_device_wear` (`statistic_manager.cpp:23-26`): a floating-point percentage, and floating point is not modelled.
- `save_common_stat` and `save_device` (`statistic_manager.cpp:42-48, 80-92`): text formatting into raw character buffers, with truncation and `{:.2f}` float output.
- `get_instance`, `G_STATISTIC_MANAGER` and the manager constructor's registration with the device communicator (`statistic_manager.cpp:51-54, 99-112`): global singletons and a call into code outside this model. The modelled constructor only starts with an empty list.
- The destructor (`statistic_manager.cpp:56-63`): it manually frees the trackers, and memory management is not modelled.
- The device itself: `get_state()` becomes an integer argument of each call. The source reads it twice in one call (lines 30 and 32). The model assumes both reads give the same value, since the controller is single-threaded.
- The persistent store: how saved values reach non-volatile memory and are read back at start-up is outside the model. The start-up contents are the constructor's `stored` argument, and each `save` is one log entry.
- `Statistics.DeviceWithStatistic.CheckStateChanges`: it does not model the conversions between the `float` parameter slot and the `int` counter (lines 10 and 34), nor 32-bit wrap-around of `cur_stat`. The count and the slot are unbounded integers, so rounding of counts above 2^24 in the float slot and overflow past 2^31 - 1 switch-ons are not captured.
- `Statistics.StatisticManager.Evaluate`: it states what each tracker ends up with, not the order of the visits. The trackers are distinct objects that share no state, so visiting them in list order cannot be distinguished from any other order within the model.
- `PAC/common/toloa++/pkg/PAC_dev.hh`: its operations, steps, timers, parameter banks, devices and bus clients are declarations only (Lua bindings without bodies). Only `saved_params_float::save` is used, as described above.
