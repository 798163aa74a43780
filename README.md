# Recovery-to-DFU entry of t8015_bootkit, modelled in Dafny

`enter_dfu_via_recovery` in `common/common.c` walks an operator through
putting an Apple A11 device from Recovery mode into DFU mode. It does the
following, in order:

1. It waits until a device answers in Recovery mode. Before each open
   attempt it closes any handle it holds.
2. It reads the serial string if the handle lacks one.
3. It classifies the device by its CPID and BDID against a small device
   table.
4. It picks the button the operator must hold, or gives up with -1 for an
   unsupported type.
5. It waits for <enter> and counts down three seconds.
6. It runs a four-second hold window, drawing a progress bar each second.
   At tick 1 it sends the reboot request.
7. It runs a ten-second release window through `prog`.
8. It reconnects in DFU mode. It returns 0 and closes the handle when the
   device came back, and -1 otherwise.

The project models all of this. Each file is one module:

- `device_table.dfy` (`DeviceTable`) has the table, the classification as
  a specification function over any table, and the nested-loop scan as a
  method proved against it. Lemmas state how the scan behaves for ordinary
  CPIDs, for the mixed CPID 0x8010 and for the shipped table.
- `buttons.dfy` (`Buttons`) maps the type to the button and to the two
  window lengths.
- `progress.dfy` (`Progress`) holds the console lines: the fixed-width
  `[====   ] (n/total sec)` bar, the countdown line and the closing line
  break. The bar is rendered by a method with the C code's two loops over
  a shared counter.
- `transfer.dfy` (`Transfer`) holds the control requests the four transfer
  wrappers hand to the USB layer. The request-type byte is decoded as in
  section 9.3.1 of the USB 2.0 specification. Request numbers follow
  table 3.2 of the USB DFU 1.1 specification.
- `enter_dfu.dfy` (`EnterDfu`) holds the procedure itself. It is a method
  that records each call it makes as an event in a trace.
  - The events are closes, opens, the serial read, the prompt, timer
    resets, lines shown, one-second waits, the reboot request, the
    reconnection and the return.
  - The trace is proved equal to a specification function of the inputs.
  - Lemmas about that function state what a whole run does.
- `wrappers.dfy` (`Wrappers`) holds the `Option` type used for pointers
  that may be NULL.

The USB layer is a set of oracle arguments:

- `opens` lists the handles that successive `io_open` calls return.
- `readInfo` is what `read_serial_number` stores.
- `reconnected` is what `io_reconnect` leaves in the handle.

The procedure has these quirks, and the model keeps them:

- The inner BDID scan for CPID 0x8010 does not stop where the CPID
  changes. It stops at the first entry whose BDID is 0xff.
- That scan assigns the outer entry's type, not the matching entry's.
- The outer scan goes on after such a hit, so a later entry can overwrite
  the result.
- With no hit, the result keeps its previous value.
- The unsupported exit (`common/common.c:158-162`) returns -1 without
  closing the handle that the wait loop opened.
- The result of `read_serial_number` is not checked.

## Model

| member | source | states |
|---|---|---|
| DeviceTable.SentinelIndex | common/common.c:127 | the index where the outer scan stops: the first entry with CPID 0xffff, none before it |
| DeviceTable.BdidStop | common/common.c:131 | the index where the inner scan stops: the first entry at or after `j` with BDID 0xff, none between |
| DeviceTable.ClassifyScan | common/common.c:126-142 | the nested loops with their `break`s compute `Classify` for every well-formed table, CPID and BDID |
| DeviceTable.ClassifyFirstMatch | common/common.c:127-140 | for a CPID other than 0x8010, the type is that of the first entry before the sentinel with that CPID |
| DeviceTable.ClassifyNoMatch | common/common.c:126-127 | when no entry before the sentinel has the CPID, the type stays DFU_UNKOWN_TYPE |
| DeviceTable.ClassifyIgnoresBdid | common/common.c:128-140 | for a CPID other than 0x8010, any two BDIDs give the same type |
| DeviceTable.BdidHitIff | common/common.c:131-132 | the inner scan hits exactly when an entry from `j` up to the first 0xff BDID carries the device's BDID |
| DeviceTable.BdidHitNeverEnd | common/common.c:131-132 | a device whose BDID is 0xff never hits in the inner scan |
| DeviceTable.ClassifyMixedLast | common/common.c:129-136 | for CPID 0x8010 the last outer entry whose inner scan hits decides, and the outer entry's type is taken |
| DeviceTable.ClassifyMixedNone | common/common.c:126-136 | for CPID 0x8010 with no inner-scan hit the type stays DFU_UNKOWN_TYPE |
| DeviceTable.ClassifyIgnoresTail | common/common.c:127-131 | entries after the first sentinel never change the type, when that sentinel's BDID is 0xff |
| DeviceTable.InnerScanCrossesCpid | common/common.c:131-133 | a BDID found in a 0x8011 entry still classifies a 0x8010 device, with the 0x8010 entry's type |
| DeviceTable.DevlistsWellFormed | common/common.c:38-43 | the shipped table ends in a sentinel whose BDID is 0xff |
| DeviceTable.ClassifyDevlists | common/common.c:38-43 | with the shipped table, CPID 0x8015 gives DFU_IPHONEX for every BDID; every other CPID gives DFU_UNKOWN_TYPE |
| Buttons.SelectButton | common/common.c:145-162 | unsupported exactly for DFU_UNKOWN_TYPE; "Home button" exactly for DFU_LEGACY; "Volume down button" exactly for DFU_IPHONE7 and DFU_IPHONEX; windows of 4 and 10 seconds for every supported type |
| Buttons.DevlistsPlan | common/common.c:145-162 | with the shipped table, a 0x8015 device gets the volume down button with 4 and 10 seconds, and any other device is turned away |
| Progress.Repeat | common/common.c:70-73 | `n` copies of the character, none for `n <= 0` |
| Progress.Decimal | common/common.c:74 | `%d` of a non-negative number: at least one digit, only digits, no leading zero |
| Progress.DecimalRoundTrip | common/common.c:74 | the printed number reads back as itself |
| Progress.BarShape | common/common.c:68-74 | the bracket holds exactly `sec` characters, the first `i + 1` of them `=` and the rest spaces, and the line ends in a carriage return |
| Progress.BarCounts | common/common.c:74 | the text after the bracket announces `i + 1` of `sec` seconds, and both numbers read back |
| Progress.RenderBar | common/common.c:197-202 | the fill loop and the pad loop with their shared counter produce `Bar(i, sec)` |
| Transfer.SendData | common/common.c:81-84 | a host-to-device class request to the interface, request 1 (DFU_DNLOAD), value and index 0, the caller's length, the default timeout |
| Transfer.SendDataWithTime | common/common.c:86-89 | the same download request with the caller's timeout |
| Transfer.GetStatus | common/common.c:91-94 | a device-to-host class request to the interface, request 3 (DFU_GETSTATUS), value and index 0, the caller's length |
| Transfer.SendAbort | common/common.c:96-99 | a host-to-device class request to the interface, request 4, no data, timeout 0 |
| Transfer.DownloadsAgree | common/common.c:81-89 | the two download wrappers differ only in the timeout |
| EnterDfu.FirstFound | common/common.c:110-111 | the attempt that ends the wait loop succeeds, and every attempt before it failed |
| EnterDfu.WaitForRecovery | common/common.c:105-116 | the loop leaves with the handle of the first successful open, so the "Failed to find" exit is unreachable; its trace is `WaitTrace` |
| EnterDfu.WaitTraceShape | common/common.c:105-112 | the wait loop makes only USB calls: a Close first exactly when a handle was passed in, then one open attempt per failure plus the successful one |
| EnterDfu.BeforeClassify | common/common.c:105-122 | before classification a run makes no wait and no reboot request; it only closes (first, if at all), opens and reads the serial |
| EnterDfu.Countdown | common/common.c:184-190 | the countdown loop produces `CountdownUpTo(3, 3)` |
| EnterDfu.CountdownAnnounces | common/common.c:186-190 | the countdown announces 3, 2 and 1, waiting once after each |
| EnterDfu.CountdownTotals | common/common.c:186-190 | the countdown has six events, three waits and no USB call |
| EnterDfu.HoldWindow | common/common.c:193-206 | the hold loop, with the reboot request at `i == 1` and the inline bar, produces `HoldTrace(sec)` |
| EnterDfu.HoldWindowReboot | common/common.c:194-196 | the hold window waits once per tick; its only USB call is one reboot request, made exactly when it lasts two ticks or more |
| EnterDfu.HoldWindowHead | common/common.c:194-204 | the reboot request goes out after tick 0 waits and before tick 1 draws its bar |
| EnterDfu.HoldAfterReboot | common/common.c:194-205 | after the reboot request the hold window makes no USB call |
| EnterDfu.Prog | common/common.c:61-79 | `prog` produces `ProgTrace(sec)` |
| EnterDfu.ProgWindow | common/common.c:68-77 | `prog(sec)` waits once per tick and makes no USB call |
| EnterDfu.ProgLines | common/common.c:66-78 | `prog(sec)` resets the timer baseline, then draws bar `i` and waits for each `i` in order, then prints one line break |
| EnterDfu.ProgDrawsEveryBar | common/common.c:68-76 | every bar from `0` to `sec - 1` is shown by `prog(sec)` |
| EnterDfu.WindowsDrawable | common/common.c:194-209 | every line the two windows show is one of that window's own bars (its total is the window's length and its tick lies inside the window) or the closing line break, so `Text` renders each |
| EnterDfu.OperatorScript | common/common.c:181-209 | prompt, timer reset, countdown, hold window and release window produce `ScriptTrace(plan)` |
| EnterDfu.ConfirmShape | common/common.c:212-221 | the reconnection makes one call, with 5 attempts, DFU mode, no reset and 10000 ms; it then closes the new handle only when the device came back; it makes no wait |
| EnterDfu.ConfirmEnd | common/common.c:213-221 | the last event returns 0 when the device came back and -1 otherwise |
| EnterDfu.EnterDfuViaRecovery | common/common.c:102-222 | returns 0 exactly when the type is supported and the device came back in DFU mode, and -1 otherwise; its trace is `RunTrace` of the inputs |
| EnterDfu.RunUnsupported | common/common.c:158-162 | an unsupported run ends right after classification with -1. It has no prompt, no wait, no reboot request and no reconnection. Its only Close is of the handle passed in, before any open |
| EnterDfu.AfterTicks | common/common.c:186-209 | the script and the reconnection wait as often as the countdown and both windows together |
| EnterDfu.AfterUsbCalls | common/common.c:186-212 | with a hold of two seconds or more, the script's only USB call before the reconnection is the reboot request |
| EnterDfu.ScriptRebootAt | common/common.c:181-196 | the reboot request is the script's eleventh event, after the prompt and after four waits, with no USB call before it |
| EnterDfu.AfterRebootNone | common/common.c:196-212 | after the reboot request the only USB calls are the reconnection's |
| EnterDfu.RunSupportedTraffic | common/common.c:184-221 | a supported run waits 17 times (3 + 4 + 10) in total. Its USB calls, in order, are the wait loop's, then the serial read if any, then one reboot request, then the reconnection, then the Close if the device came back |
| EnterDfu.RunSupportedReboot | common/common.c:194-196 | a supported run makes exactly one reboot request, after the prompt and after exactly four waits |
| EnterDfu.RunSupportedResult | common/common.c:212-221 | a supported run ends by returning 0 when the device came back, and -1 otherwise |
| EnterDfu.DevlistsRun | common/common.c:127-162 | with the shipped table, a run goes on past classification exactly when the device's CPID is 0x8015 |

## Left out

- `interval` and `cpuTime` (`common/common.c:45-59`) busy-wait on `clock()` in double-precision arithmetic. Each `interval(1)` is one `Tick` event. Each `cpuTime = clock()` is one `TimerReset` event. Real time is not modelled.
- `io_open`, `io_close`, `io_reconnect`, `read_serial_number`, `send_reboot_via_recovery` and the control transfers belong to the USB layer, which is not part of this model. The model records each call with its arguments. It takes the results as oracle arguments.
- Transfer.SendData, Transfer.SendDataWithTime, Transfer.GetStatus, Transfer.SendAbort: these state the request that is handed over, not the transfer or its `transfer_t` result.
- `common/common.h` is not part of this model. The numeric values of the DFU type constants are unknown, so `DfuType` is a closed datatype with the four named types.
- EnterDfu.WaitForRecovery requires that some open attempt succeeds. Without one, the C loop never ends, and that non-terminating run is not modelled. The same requirement applies to EnterDfu.EnterDfuViaRecovery and to the lemmas about a run.
- DeviceTable.ClassifyScan requires a well-formed table: a sentinel entry exists, and its BDID is 0xff. The C scan reads past the array otherwise. The shipped table is well formed (`DeviceTable.DevlistsWellFormed`). For other tables, `BdidHit` and `ScanFrom` treat running off the end as "no match".
- EnterDfu.EnterDfuViaRecovery also requires a well-formed table, for the same reason.
- The banner and instruction `printf`s, the colour escapes and `fflush` (`common/common.c:164-180`), and the line break printed after the prompt (`common/common.c:182`), are not modelled. Neither are the log macros `LOG`, `DEBUGLOG` and `ERROR`, or the `LOG_NOFUNC` step headers.
- The `getchar` readiness gate is one `Prompt` event. What the operator types is not modelled.
- Console output is modelled as `Show` events. Each carries a `Line` whose text `Progress.Text` gives. The carriage-return overwriting on a terminal is not modelled.
- The `io_client_t` record is modelled only through the fields the procedure reads: `hasSerialStr`, `cpid` and `bdid`.
