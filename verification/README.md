# Dafny model of the phone bring-up's stateful parts

Proofs about the pieces of this repository that keep state across calls: the MSM DSI host's long read
and its power life cycle, the JDI panel driver, the PMIC fuel gauge's SRAM access, the switch-mode
charger, the WLED backlight, and the HUD (glyph atlas, vertex batches, nmcli fields, Wi-Fi). Code that
updates state is modelled by classes and in-place methods; what a method must do is a function or a
predicate, and laws over runs are lemmas about those.

Verify everything with `dafny verify dfyconfig.toml`.

| file | what it models |
|---|---|
| `FgAccess.dfy` | shared access to the fuel gauge SRAM: clients, release worker and the interrupt handler's two register reads as atomic steps |
| `FgSram.dfy` | the four-byte window over SRAM as flat memory, and the temperature thresholds kept there |
| `Wled.dfy`, `WledBursts.dfy` | the over-voltage interrupt's disable depth; short and over-voltage burst counters over whole traces |
| `DsiRead.dfy` | a long read reassembled from the last 16 bytes of each of several replies |
| `DsiPower.dfy`, `JdiPanel.dfy` | clocks, supplies, PHY and interrupt of a DSI link over on/off cycles with transfers between; the panel's command sequence |
| `ChargerTables.dfy`, `Charger.dfy` | rounding down over limit tables, two input-current modes, fast-charge current and float voltage over a faulty bus |
| `VertexBatch.dfy`, `GlyphAtlas.dfy` | buffered drawing against immediate drawing; the shelf packer over its image |
| `FieldSplit.dfy` | splitting and unescaping nmcli's terse output in place, against escaping and joining |
| `WifiFlow.dfy`, `ConnectScript.dfy` | the HUD's decision functions; the join script: what it tries and what its exit codes say |
| `WifiState.dfy`, `WifiRuns.dfy`, `WifiEffects.dfy`, `WifiEnds.dfy`, `WifiPassword.dfy`, `WifiHud.dfy` | the HUD's Wi-Fi state machine, what its runs keep, what each handler and each end of a process means for the rest, what a typed password leads to, and the handlers that implement it |
| `Common.dfy` | a byte type, an option type and three functions that several parts use |

## What turned out different from what one would expect

- A request between the release worker's clear and its re-initialisation can transfer without access
  (`FgAccess.RequestInWindowLosesAccess`); so can one after an interrupt handler that saw access before
  that window and reports behind it (`HandlerAcrossWindowLosesAccess`), one that had made only the first
  of its two reads by then (`HalfReadAcrossWindowLosesAccess`), and, when the wait for the revocation
  timed out, one that starts behind the window (`HalfReadAfterWindowLosesAccess`). Excluding these is
  enough (`GrantMeansAccess`), and a stale grant always does harm (`StaleGrantLosesAccess`).
- A client that gives up after a timeout queues no release work; if it was the last one, the request
  bit stays set (`FgAccess.LeakExactly`).
- A failed DSI power-on still gets its `post_disable`, so the interrupt stays masked after a later
  success (`DsiPower.Link.CyclesThenOn` gives the exact condition). A transfer whose clock enable
  fails still gives one back (`DsiPower.MissedEnableStopsThePoweredLink`); it balances exactly if its
  enable worked or the host is off by its end (`DsiPower.Link.TransferAcross`).
- The charger's automatic search reports a failed switch to high-current mode as success, because the
  code returned there, `IRQ_NONE`, is zero. The path is then enabled in the old mode
  (`Charger.FastPortLeftInTheOldMode`; `Charger.Chip.AiclEnable` gives the exact condition).
- The panel is marked initialised before its initialisation has worked. It is ever sent exit-sleep
  exactly if the first sixteen transfers work, and leaves sleep exactly if the seventeenth, which is
  never repeated, works too (`JdiPanel.Life`, `FailedInitNeverWakes`, `FailedExitSleepIsNotRepeated`).
- Five over-voltage faults within a second need not trigger detection; nine do
  (`WledBursts.EightAreNotEnough`, `NineWithinASecondFire`).
- A network whose name contains ':' or '\' is never seen live by the join script, which splits
  nmcli's escaped output plainly; joining it always fails (`ConnectScript.EscapedNameNeverJoins`).
- A line of more than eight fields makes the HUD store past its eight field pointers
  (`FieldSplit.SplitFields`, both directions).
- Joining a network called "forget" runs the script's forget action
  (`ConnectScript.Invoke` gives the exact condition).
- A password typed on the sheet that a probe opened goes astray: the HUD joins the network joined last by printing its
  name into the buffer it is read from, which empties it, and the script runs for no network
  (`WifiPassword.AskedPasswordGoesAstray`, and a run in `FirstPasswordGoesAstray`). It joins its network
  exactly if that buffer is empty (`SubmitJoinsItsNetworkExactly`), so typing it once more works
  (`SecondPasswordJoins`).
- A join can succeed on another network, where awk takes the two names for equal
  (`ConnectScript.JoinOnAnother`); `MistakenOnlyFor` says for which names.
- The HUD's retry with a remembered password cannot be reached (`WifiRuns.NoRetryInAnyRun`), so joins
  are bounded by taps plus submitted passwords, not twice the taps.
- The result of starting the join process is ignored; if it fails the HUD stays connecting with
  nothing running (`WifiRuns.FailedStartSticks`), and that is the only exception to the mode law. Only
  an accepted password or forgetting a network gets it out (`WifiRuns.OnlyThoseFree`, `StuckForGood`).

## Model

| member | source | states |
|---|---|---|
| `FgAccess.CountedStep` | overlays/linux/drivers/power/supply/qcom_fg.c:228-317 | every atomic step keeps the request count equal to the number of clients inside; the request bit is dropped only by the worker and only at count zero |
| `FgAccess.CountingHolds` | overlays/linux/drivers/power/supply/qcom_fg.c:228-317 | so does every run, in any interleaving; the count never goes negative |
| `FgAccess.CountingFromStart` | overlays/linux/drivers/power/supply/qcom_fg.c:228-317 | from start, for any number of clients: count equals clients inside, and a positive count means the request bit is set |
| `FgAccess.SafeStep` | overlays/linux/drivers/power/supply/qcom_fg.c:223-327 | a step that is not a request meeting a stale grant keeps: a grant given, reported as seen, or half read under a set request bit has availability behind it; every holder has access |
| `FgAccess.AccessHeldThroughout` | overlays/linux/drivers/power/supply/qcom_fg.c:223-327 | on every run in which no request meets a stale grant, a handler between its two reads included, whoever is past the wait has access |
| `FgAccess.AccessHeldFromStart` | overlays/linux/drivers/power/supply/qcom_fg.c:223-327 | the same from start: every granted or transferring client has the request bit and availability behind it |
| `FgAccess.WindowExclusionSuffices` | overlays/linux/drivers/power/supply/qcom_fg.c:298-327 | a run whose requests stay out of the worker's window and out of a handler's reads of a clear bit, and whose handlers that saw access do not outlive the window, has no request meeting a stale grant |
| `FgAccess.GrantMeansAccess` | overlays/linux/drivers/power/supply/qcom_fg.c:223-327 | on such runs a completed grant outside the window means request bit and availability are both set, and so does every holder; the handler's two register reads may fall anywhere |
| `FgAccess.StaleGrantLosesAccess` | overlays/linux/drivers/power/supply/qcom_fg.c:223-271 | conversely, from every counted state with a stale grant (completed, seen or half read) and an idle client at most five steps let that client past the wait without access |
| `FgAccess.HalfReadLosesAccess` | overlays/linux/drivers/power/supply/qcom_fg.c:199-215 | the same for a handler that has read the availability and not yet the request bit, in five steps |
| `FgAccess.WhatMakesAGrantStale` | overlays/linux/drivers/power/supply/qcom_fg.c:199-327 | a step makes a grant stale exactly if it is the worker's clear under a promised grant, or a handler's first read of a lingering availability under a clear bit |
| `FgAccess.HolderStep` | overlays/linux/drivers/power/supply/qcom_fg.c:223-327 | a client comes past the wait only with access, and keeps it until it leaves |
| `FgAccess.CompletedStaleGrantLosesAccess` | overlays/linux/drivers/power/supply/qcom_fg.c:223-271 | the same for a grant already completed, in three steps |
| `FgAccess.RequestInWindowLosesAccess` | overlays/linux/drivers/power/supply/qcom_fg.c:298-327 | the concrete run: a request between clear and reinit transfers without access |
| `FgAccess.HandlerAcrossWindowLosesAccess` | overlays/linux/drivers/power/supply/qcom_fg.c:996-1009 | a second run: a handler that saw access before the clear and reports after the reinit has the same effect |
| `FgAccess.HalfReadAcrossWindowLosesAccess` | overlays/linux/drivers/power/supply/qcom_fg.c:199-215 | a third run: a handler that read only the availability before the clear reads the request bit after a new request |
| `FgAccess.HalfReadAfterWindowLosesAccess` | overlays/linux/drivers/power/supply/qcom_fg.c:298-327 | a fourth: after a revocation wait that timed out, a handler wholly behind the window finds the availability still up |
| `FgAccess.LeakExactly` | overlays/linux/drivers/power/supply/qcom_fg.c:258-317 | the request bit is left set with nobody counted and no work to look at it exactly when the last client gives up after a timeout, or the worker's clear fails |
| `FgAccess.ReleaseIsOwed` | overlays/linux/drivers/power/supply/qcom_fg.c:279-317 | without those two, a set bit with nobody counted always has release work coming |
| `FgAccess.LatestDecides` | overlays/linux/drivers/power/supply/qcom_fg.c:199-327 | on any run, a bit that some steps set and some clear is what the latest of those steps made it |
| `FgAccess.RevokedExactly` | overlays/linux/drivers/power/supply/qcom_fg.c:996-1009 | on every run the revocation is completed exactly if some handler reported no access and no transfer began after it, which re-arms it |
| `FgAccess.GrantedExactly` | overlays/linux/drivers/power/supply/qcom_fg.c:996-1009 | the grant is completed exactly if some handler reported access and the worker has not re-armed it since |
| `FgAccess.RequestedExactly` | overlays/linux/drivers/power/supply/qcom_fg.c:228-317 | the request bit is set exactly if some request asked the hardware and no worker has given the access back since |
| `FgAccess.QueuedExactly` | overlays/linux/drivers/power/supply/qcom_fg.c:279-300 | release work is queued exactly if some release was the last one and the delay has not passed since |
| `FgAccess.AtLockExactly` | overlays/linux/drivers/power/supply/qcom_fg.c:298-312 | the worker stands before its look at the count exactly if its timer fired and it has not looked since |
| `FgAccess.AwaitExactly` | overlays/linux/drivers/power/supply/qcom_fg.c:306-325 | it waits for the revocation exactly if it found nobody and has neither seen a revocation nor timed out since |
| `FgAccess.ReinitExactly` | overlays/linux/drivers/power/supply/qcom_fg.c:314-327 | it is about to re-arm the grant exactly if it stopped waiting and has not re-armed it since |
| `FgAccess.HalfReadExactly` | overlays/linux/drivers/power/supply/qcom_fg.c:199-215 | a handler is between its reads exactly if one found access available and has not read the request bit since |
| `FgAccess.SawAccessExactly` | overlays/linux/drivers/power/supply/qcom_fg.c:199-215 | a handler is about to report access exactly if it found both bits and has not reported since |
| `FgAccess.SawLossExactly` | overlays/linux/drivers/power/supply/qcom_fg.c:199-215 | it is about to report none exactly if it missed either bit |
| `FgAccess.WaitsExactly` | overlays/linux/drivers/power/supply/qcom_fg.c:247-257 | a client waits exactly if it was counted in and was neither granted nor timed out since |
| `FgAccess.GrantedClientExactly` | overlays/linux/drivers/power/supply/qcom_fg.c:252-268 | it is past the wait exactly if it saw the grant and has not begun its transfer |
| `FgAccess.TransferExactly` | overlays/linux/drivers/power/supply/qcom_fg.c:266-296 | it transfers exactly if it began and has not released |
| `FgAccess.TimedOutExactly` | overlays/linux/drivers/power/supply/qcom_fg.c:258-264 | it is giving up exactly if its wait timed out and it has not been counted out |
| `FgAccess.WaitsAreAnswered` | overlays/linux/drivers/power/supply/qcom_fg.c:252-325 | so a wait for the grant ends well only behind a report of access newer than the last re-arming, the worker sees a revocation only behind such a report of its loss, and the timer fires only behind a last release |
| `FgSram.LayoutsSpillHarmlessly` | overlays/linux/drivers/power/supply/qcom_fg.c:1030-1044 | in both register layouts the bytes a write spills past its window miss the configuration, control and address registers |
| `FgSram.FuelGauge.ReadWindow` | overlays/linux/drivers/power/supply/qcom_fg.c:398-404 | one read pass puts the right SRAM bytes first and junk only where later passes write |
| `FgSram.FuelGauge.WriteWindow` | overlays/linux/drivers/power/supply/qcom_fg.c:459-465 | one write pass changes exactly the bytes of its window and spills only above it |
| `FgSram.FuelGauge.Read` | overlays/linux/drivers/power/supply/qcom_fg.c:365-415 | for every address, offset and length (also not positive) a read returns exactly the bytes of flat memory, in a known number of bus accesses, with the window set for reading and for bursts exactly above four bytes; it succeeds exactly if access is granted and no bus access fails, and else returns the timeout or the error of its last access |
| `FgSram.PrefixGrows` | overlays/linux/drivers/power/supply/qcom_fg.c:452-470 | write passes accumulate a prefix of the data over flat memory |
| `FgSram.FuelGauge.WritePass` | overlays/linux/drivers/power/supply/qcom_fg.c:452-470 | one pass extends the written prefix, or leaves it on a bus error |
| `FgSram.FuelGauge.Write` | overlays/linux/drivers/power/supply/qcom_fg.c:426-476 | a write patches exactly the addressed bytes of flat memory, with the window set for writing; a failed one leaves a prefix and nothing else and returns the timeout or the error of its last access |
| `FgSram.FuelGauge.GetTempThreshold` | overlays/linux/drivers/power/supply/qcom_fg.c:591-624 | the four properties are the bytes at 0x454 to 0x457, in whole degrees above -30; any other is refused |
| `FgSram.FuelGauge.SetTempThreshold` | overlays/linux/drivers/power/supply/qcom_fg.c:634-667 | of all SRAM exactly the byte of the property changes, or nothing |
| `FgSram.ThresholdSurvives` | overlays/linux/drivers/power/supply/qcom_fg.c:591-667 | set then get gives the value truncated toward zero to tens exactly if it lies between -309 and 2259, and otherwise one off by a multiple of 256 degrees |
| `FgSram.FuelGauge.SetAll` | overlays/linux/drivers/power/supply/qcom_fg.c:634-667 | after any sequence of sets, some of them failing, each threshold byte is that of its property's last accepted value and all other SRAM is untouched; on a working bus a set fails exactly without access or for another property |
| `FgSram.LastAcceptedIsLast` | overlays/linux/drivers/power/supply/qcom_fg.c:634-667 | the last accepted value of a property is that of an accepted call which no other accepted one follows |
| `FgSram.NoneAccepted` | overlays/linux/drivers/power/supply/qcom_fg.c:634-667 | and there is none where no call was accepted |
| `FgSram.FuelGauge.SetAllThenGet` | overlays/linux/drivers/power/supply/qcom_fg.c:591-667 | a get after any such sequence gives the last accepted value cut to whole degrees exactly if that value fits, and what was there before where none was accepted |
| `Wled.Backlight.constructor` | overlays/linux/drivers/video/backlight/qcom-wled.c:1636-1664 | the interrupt starts masked once, module off |
| `Wled.Backlight.OvpWork` | overlays/linux/drivers/video/backlight/qcom-wled.c:293-300 | the delayed work undoes one disable, never at depth zero |
| `Wled.Backlight.CancelWorkSync` | overlays/linux/drivers/video/backlight/qcom-wled.c:302-332 | a pending work item is dropped, a running one is waited out and its enable counted |
| `Wled.Backlight.ModuleEnable` | overlays/linux/drivers/video/backlight/qcom-wled.c:302-332 | switching on schedules one enable; switching off cancels it or pays with one disable |
| `Wled.Backlight.UpdateStatus` | overlays/linux/drivers/video/backlight/qcom-wled.c:434-483 | a brightness update switches the module exactly when it crosses zero, and keeps the depth balance |
| `Wled.Backlight.ShortIrq` | overlays/linux/drivers/video/backlight/qcom-wled.c:533-570 | a short cycles the module; the balance survives exactly if the module was on |
| `Wled.Backlight.AutoDetectionRequired` | overlays/linux/drivers/video/backlight/qcom-wled.c:763-794 | the fault counter advances by its step function, or not at all where detection is off |
| `Wled.Backlight.Handle` | overlays/linux/drivers/video/backlight/qcom-wled.c:293-570 | every event does to brightness, module, work, interrupt depth and counters what it is for and leaves the rest; every event but a short on a module that is off keeps the exact balance |
| `Wled.Backlight.Run` | overlays/linux/drivers/video/backlight/qcom-wled.c:293-570 | over any interleaving: the brightness is that of the last update; on and pending means depth 1, on and idle depth 0, off depth 1 and nothing pending; the counters are those of the short and fault times, and without auto detection giving up, the driver gives up exactly if six shorts were in a row |
| `Wled.StrayShort` | overlays/linux/drivers/video/backlight/qcom-wled.c:533-570 | a short on a module that is off really breaks the balance |
| `WledBursts.CountIsRunLength` | overlays/linux/drivers/video/backlight/qcom-wled.c:533-570 | the short counter is the length of the latest run of shorts with gaps of at most a second |
| `WledBursts.LatestRunUnique` | overlays/linux/drivers/video/backlight/qcom-wled.c:533-570 | that run is unique |
| `WledBursts.DisabledIffSixInARow` | overlays/linux/drivers/video/backlight/qcom-wled.c:533-570 | the driver gives up if and only if some six shorts were in a row |
| `WledBursts.GivesUpAtFirstSix` | overlays/linux/drivers/video/backlight/qcom-wled.c:533-570 | and it does so at the first such sixth short |
| `WledBursts.OpenWindow` | overlays/linux/drivers/video/backlight/qcom-wled.c:763-794 | the open fault window always holds the last faults, all within a second, none of which fired |
| `WledBursts.FiringIsDeserved` | overlays/linux/drivers/video/backlight/qcom-wled.c:763-794 | a firing fault and the four before it span at most a second and none of them served another firing |
| `WledBursts.FreshWindowFires` | overlays/linux/drivers/video/backlight/qcom-wled.c:763-794 | the fifth of five faults within a second fires if and only if the first of them opened a window |
| `WledBursts.WindowCloses` | overlays/linux/drivers/video/backlight/qcom-wled.c:763-794 | an open window closes within the faults it still lacks |
| `WledBursts.NineWithinASecondFire` | overlays/linux/drivers/video/backlight/qcom-wled.c:763-794 | any nine faults within a second fire, whatever came before |
| `WledBursts.EightAreNotEnough` | overlays/linux/drivers/video/backlight/qcom-wled.c:763-794 | eight may go unheard |
| `DsiRead.LastPassIsFull` | overlays/linux/drivers/gpu/drm/msm/dsi/dsi_host.c:2196-2280 | the growing packet size reaches the length asked for exactly at the last pass |
| `DsiRead.SkipsExactlyTheOverlap` | overlays/linux/drivers/gpu/drm/msm/dsi/dsi_host.c:1457-1504 | what a pass skips of the FIFO is exactly what the buffer already holds, or the stale bytes of a short first pass |
| `DsiRead.ShortReplyCompletes` | overlays/linux/drivers/gpu/drm/msm/dsi/dsi_host.c:2196-2280 | a payload shorter than the first reply is complete after one pass, behind the stale bytes |
| `DsiRead.FirstReplyStitches` | overlays/linux/drivers/gpu/drm/msm/dsi/dsi_host.c:2246-2280 | the first full reply leaves the header and ten payload bytes |
| `DsiRead.LaterReplyStitches` | overlays/linux/drivers/gpu/drm/msm/dsi/dsi_host.c:2246-2280 | each later reply continues the payload exactly where the buffer ends |
| `DsiRead.PassStitches` | overlays/linux/drivers/gpu/drm/msm/dsi/dsi_host.c:2246-2280 | each pass takes header and payload prefix to the next stage, the last one to the whole payload |
| `DsiRead.ThroughMeans` | overlays/linux/drivers/gpu/drm/msm/dsi/dsi_host.c:2208-2256 | the passes go through exactly if each of them gets its two results |
| `DsiRead.DsiHost.DmaRx` | overlays/linux/drivers/gpu/drm/msm/dsi/dsi_host.c:1457-1504 | the register loop copies exactly the FIFO's tail to the buffer offset, reversed word by word |
| `DsiRead.DsiHost.Pass` | overlays/linux/drivers/gpu/drm/msm/dsi/dsi_host.c:2208-2256 | one pass: errors as the link gives them, otherwise the next stitched stage, inside the buffer bound |
| `DsiRead.DsiHost.ReadPasses` | overlays/linux/drivers/gpu/drm/msm/dsi/dsi_host.c:2196-2280 | for every length above two the passes end, announce the growing sizes, stay within max(16, length + 6) bytes and assemble header and payload; they fail exactly with the first failing pass |
| `DsiRead.DsiHost.ReadShort` | overlays/linux/drivers/gpu/drm/msm/dsi/dsi_host.c:2192-2259 | a short read brings the four response bytes to the front, and announces the length asked for |
| `DsiRead.DsiHost.Respond` | overlays/linux/drivers/gpu/drm/msm/dsi/dsi_host.c:2282-2316 | the response byte decides: an acknowledged error gives nothing, a short response its one or two bytes or an error, a long one its payload, anything else nothing; bytes not handed over stay |
| `DsiRead.DsiHost.CmdRx` | overlays/linux/drivers/gpu/drm/msm/dsi/dsi_host.c:2181-2317 | for any length: 0x11 and 0x21 hand over the byte behind the head, 0x12 and 0x22 the two bytes behind it or -EINVAL where one was asked for, 0x1a and 0x1c exactly the payload of a long response, 0x02 and any unknown head nothing; a failed read returns the error of its first failing pass and leaves the caller's buffer alone; nothing past the bound is written |
| `DsiPower.Link.constructor` | overlays/linux/drivers/gpu/drm/msm/dsi/dsi_host.c:2020-2036 | the link starts with no clock enabled and its interrupt masked once |
| `DsiPower.Link.LinkClkEnable` | overlays/linux/drivers/gpu/drm/msm/dsi/dsi_host.c:435-474 | all four clocks or, whichever fails, none |
| `DsiPower.Link.LinkClkDisable` | overlays/linux/drivers/gpu/drm/msm/dsi/dsi_host.c:551-559 | all four counts drop together |
| `DsiPower.Link.PhyEnable` | overlays/linux/drivers/gpu/drm/msm/dsi/dsi_manager.c:137-187 | the PHY is reset and trained until it works once; then its first timings are handed out again |
| `DsiPower.Link.PowerOn` | overlays/linux/drivers/gpu/drm/msm/dsi/dsi_host.c:2443-2529 | comes up exactly if the steps still needed work, and else returns the error of the first that does not; on any failure the clock ledger balances and the supplies, once on, stay on |
| `DsiPower.Link.PowerOff` | overlays/linux/drivers/gpu/drm/msm/dsi/dsi_host.c:2531-2558 | gives back one clock enable if powered |
| `DsiPower.Link.BridgePowerOn` | overlays/linux/drivers/gpu/drm/msm/dsi/dsi_manager.c:212-260 | PHY, host, interrupt; the byte interface rate follows the timings the PHY was trained with |
| `DsiPower.Link.PreEnable` | overlays/linux/drivers/gpu/drm/msm/dsi/dsi_manager.c:279-320 | up exactly if PHY and host come up; a trained PHY is not reset, held supplies stay held |
| `DsiPower.Link.PostDisable` | overlays/linux/drivers/gpu/drm/msm/dsi/dsi_manager.c:335-384 | masks the interrupt and drops the clocks; PHY and supplies stay |
| `DsiPower.Link.TransferEnter` | overlays/linux/drivers/gpu/drm/msm/dsi/dsi_host.c:1730-1744 | a transfer is refused without power, else waits for the command mutex |
| `DsiPower.Link.XferPrepare` | overlays/linux/drivers/gpu/drm/msm/dsi/dsi_host.c:2120-2153 | takes one clock enable, or misses it unnoticed |
| `DsiPower.Link.XferRestore` | overlays/linux/drivers/gpu/drm/msm/dsi/dsi_host.c:2155-2171 | gives one clock enable back |
| `DsiPower.Link.ClocksExact` | overlays/linux/drivers/gpu/drm/msm/dsi/dsi_host.c:2120-2171 | in every valid state in which no enable was missed, each clock count is one for power plus one per transfer in flight, and no disable met a zero count |
| `DsiPower.Link.TransferAcross` | overlays/linux/drivers/gpu/drm/msm/dsi/dsi_host.c:2120-2171 | a transfer gives back what it took if and only if its own clock enable worked or the host is off by its end, with any power events while it runs |
| `DsiPower.Link.IrqExact` | overlays/linux/drivers/gpu/drm/msm/dsi/dsi_manager.c:279-384 | while pre_enable and post_disable alternate, a powered link has its interrupt unmasked exactly if post_disable never ran on a link that failed to come up |
| `DsiPower.OnIfSwitchedOn` | overlays/linux/drivers/gpu/drm/msm/dsi/dsi_manager.c:279-384 | if every attempt works, the link is on exactly if the last power event is a pre_enable, or, without any, if it was on before |
| `DsiPower.TrainedGrows` | overlays/linux/drivers/gpu/drm/msm/dsi/dsi_manager.c:137-187 | the PHY is trained exactly from the first working training on, with that training's timings |
| `DsiPower.HeldGrows` | overlays/linux/drivers/gpu/drm/msm/dsi/dsi_host.c:2465-2475 | the supplies are held exactly from the first attempt that gets to them and finds them working |
| `DsiPower.Link.Handle` | overlays/linux/drivers/gpu/drm/msm/dsi/dsi_manager.c:279-384 | pre_enable powers the link exactly if PHY and host come up and then unmasks the interrupt once; post_disable powers it off and masks the interrupt once more; a transfer's steps move what waits and what is in flight; a mode set sets the byte rate; each leaves the rest |
| `DsiPower.Link.HandleNext` | overlays/linux/drivers/gpu/drm/msm/dsi/dsi_manager.c:137-384 | one more event keeps power, supplies, PHY, rates and interrupt depth what the events so far amount to |
| `DsiPower.Link.Run` | overlays/linux/drivers/gpu/drm/msm/dsi/dsi_manager.c:137-384 | over any run with transfers in between: power, PHY, supplies, rates and interrupt depth are what the events amount to; where every attempt works the link is on exactly if the last power event is a pre_enable; ledgers balanced, supplies enabled at most once and never disabled, a trained PHY never reset again; if every transfer's enable works, each clock count is one for power plus one per transfer in flight |
| `DsiPower.NoFailures` | overlays/linux/drivers/gpu/drm/msm/dsi/dsi_manager.c:279-384 | the failure count is zero exactly if every attempt came up |
| `DsiPower.Link.Cycles` | overlays/linux/drivers/gpu/drm/msm/dsi/dsi_manager.c:279-384 | each failed attempt among on/off cycles leaves the interrupt masked once more |
| `DsiPower.Link.CyclesThenOn` | overlays/linux/drivers/gpu/drm/msm/dsi/dsi_manager.c:279-384 | a link that comes up after some cycles has its interrupt exactly if none of them failed |
| `DsiPower.FailedPowerOnMasksTheInterrupt` | overlays/linux/drivers/gpu/drm/msm/dsi/dsi_manager.c:279-384 | one failed attempt, concretely: up, powered, interrupt still masked |
| `DsiPower.MissedEnableStopsThePoweredLink` | overlays/linux/drivers/gpu/drm/msm/dsi/dsi_host.c:2120-2171 | one missed enable, concretely: powered with its clocks off |
| `JdiPanel.Panel.Start` | overlays/linux/drivers/gpu/drm/panel/panel-jdi-fhd-r63452.c:106-180 | a first enable puts reset, initialisation, wake-up and polls on the wire in that order; exit-sleep is sent if and only if all sixteen transfers before it work, heard if and only if it works too, and the call succeeds if and only if all of its commands do |
| `JdiPanel.Panel.Resume` | overlays/linux/drivers/gpu/drm/panel/panel-jdi-fhd-r63452.c:125-146 | a later enable sends display-on once or twice and nothing else |
| `JdiPanel.Panel.Enable` | overlays/linux/drivers/gpu/drm/panel/panel-jdi-fhd-r63452.c:106-180 | the same of a first enable; a later one sends display-on once or twice, never exit-sleep, and leaves the panel asleep or awake as it was |
| `JdiPanel.Panel.SendAll` | overlays/linux/drivers/gpu/drm/panel/panel-jdi-fhd-r63452.c:50-77 | a command context sends its commands up to and including the first whose transfer fails |
| `JdiPanel.Panel.Poll` | overlays/linux/drivers/gpu/drm/panel/panel-jdi-fhd-r63452.c:165-173 | at most six more display-on commands |
| `JdiPanel.Panel.Disable` | overlays/linux/drivers/gpu/drm/panel/panel-jdi-fhd-r63452.c:182-201 | display-off alone, and the panel counts as asleep |
| `JdiPanel.Panel.SetDisplay` | overlays/linux/drivers/gpu/drm/panel/panel-jdi-fhd-r63452.c:211-238 | sends exactly the command that changes the state asked for, or nothing |
| `JdiPanel.Panel.SleepStore` | overlays/linux/drivers/gpu/drm/panel/panel-jdi-fhd-r63452.c:325-344 | a sysfs write sets the state it names or changes nothing |
| `JdiPanel.Panel.Handle` | overlays/linux/drivers/gpu/drm/panel/panel-jdi-fhd-r63452.c:106-344 | each request does what it is for: a first enable sends exit-sleep exactly if sixteen transfers work and wakes the panel exactly if seventeen do, a later one puts display-on on the wire, a disable display-off, a sysfs write its one command or none; the asleep and initialised flags follow |
| `JdiPanel.Panel.Run` | overlays/linux/drivers/gpu/drm/panel/panel-jdi-fhd-r63452.c:106-344 | over any run and any transfer failures: at most one reset, at most one exit from sleep, never an entry; initialised exactly if enabled at least once; from the first enable on the panel counts as asleep as last asked, and whether it ever leaves sleep is settled |
| `JdiPanel.Panel.WakeReaches` | overlays/linux/drivers/gpu/drm/panel/panel-jdi-fhd-r63452.c:140-180 | of the wake-up, exit-sleep is reached if and only if the first transfer works, and heard if and only if the second does too |
| `JdiPanel.Life` | overlays/linux/drivers/gpu/drm/panel/panel-jdi-fhd-r63452.c:106-344 | from the first enable over any later run: exit-sleep is on the wire if and only if the first sixteen transfers work, and the panel is awake if and only if the seventeenth does too |
| `JdiPanel.AfterFirstEnable` | overlays/linux/drivers/gpu/drm/panel/panel-jdi-fhd-r63452.c:106-180 | what a first enable adds to the reset, exit-sleep and enter-sleep counts of any wire |
| `JdiPanel.CountFirstEnable` | overlays/linux/drivers/gpu/drm/panel/panel-jdi-fhd-r63452.c:106-180 | how often each command occurs in a first enable, for every point it can stop at |
| `JdiPanel.FailedInitNeverWakes` | overlays/linux/drivers/gpu/drm/panel/panel-jdi-fhd-r63452.c:121-150 | a failure of any of the fifteen initialisation writes or of the display-on after them leaves the panel in sleep over every later run |
| `JdiPanel.FailedExitSleepIsNotRepeated` | overlays/linux/drivers/gpu/drm/panel/panel-jdi-fhd-r63452.c:140-180 | so does a failure of exit-sleep itself, which is sent once and never again |
| `ChargerTables.FindClosestSmaller` | overlays/linux/drivers/power/supply/qcom-smbchg.c:30-40 | the largest table entry not above the request, or the first entry below all of them |
| `ChargerTables.BestOfBothModes` | overlays/linux/drivers/power/supply/qcom-smbchg.c:356-397 | the mode rule finds the largest limit of both modes together that does not exceed the request |
| `ChargerTables.Pmi8994Fits` | overlays/linux/drivers/power/supply/qcom-smbchg.h:331-364 | the first chip's table has what the mode rule rests on |
| `ChargerTables.Pmi8996Fits` | overlays/linux/drivers/power/supply/qcom-smbchg.h:377-410 | so has the second chip's |
| `ChargerTables.FloatVoltagesAscend` | overlays/linux/drivers/power/supply/qcom-smbchg.h:270-318 | the float voltages ascend |
| `Charger.IndexReadsBack` | overlays/linux/drivers/power/supply/qcom-smbchg.h:82-83 | no current index is truncated by its five-bit field |
| `Charger.VoltageReadsBack` | overlays/linux/drivers/power/supply/qcom-smbchg.h:90-91 | no voltage index plus five is truncated by its six-bit field |
| `Charger.MergeReadsBack` | overlays/linux/drivers/soc/qcom/pmic-sec-write.c:65-78 | a masked write sets the masked bits and no others |
| `Charger.Chip.SecMaskedWrite` | overlays/linux/drivers/soc/qcom/pmic-sec-write.c:65-78 | unlocks the peripheral, then changes one register under its mask; a bus error leaves the register as it was; works exactly if its three accesses do |
| `Charger.Chip.UpdateBits` | overlays/linux/drivers/power/supply/qcom-smbchg.c:85-100 | a read-modify-write of one register |
| `Charger.Chip.UsbEnable` | overlays/linux/drivers/power/supply/qcom-smbchg.c:85-100 | suspends or enables the path by the suspend bit alone and keeps the programmed limit |
| `Charger.Chip.GetInputLimit` | overlays/linux/drivers/power/supply/qcom-smbchg.c:140-196 | reports the limit the registers stand for, in low-current, overridden and automatic mode |
| `Charger.OptionSpelled` | overlays/linux/drivers/power/supply/qcom-smbchg.h:226-234 | two bits spell the low-current option |
| `Charger.OptionReadsBack` | overlays/linux/drivers/power/supply/qcom-smbchg.h:226-236 | and read back as it |
| `Charger.Chip.SpellOption` | overlays/linux/drivers/power/supply/qcom-smbchg.c:232-262 | the three register steps spell the option, moving no other bits |
| `Charger.OverriddenReadsBack` | overlays/linux/drivers/power/supply/qcom-smbchg.c:168-184 | an overridden high-current limit reads back as the table entry of its index |
| `Charger.Chip.SetInputLimitLc` | overlays/linux/drivers/power/supply/qcom-smbchg.c:214-268 | a positive result is the largest low-current option within the request, and is what the hardware holds |
| `Charger.Chip.SetInputLimitHc` | overlays/linux/drivers/power/supply/qcom-smbchg.c:283-344 | the same for the high-current table |
| `Charger.Chip.SetInputLimit` | overlays/linux/drivers/power/supply/qcom-smbchg.c:356-397 | from 100 mA up: the largest limit of both modes within the request, path enabled, hardware holding it; below: path suspended |
| `Charger.Chip.SetThenGet` | overlays/linux/drivers/power/supply/qcom-smbchg.c:140-397 | reading back returns exactly the limit granted |
| `Charger.Chip.AiclEnable` | overlays/linux/drivers/power/supply/qcom-smbchg.c:409-458 | the automatic search has the limit, with the top index as its ceiling, exactly if the call reports success and the switch to high-current mode worked; a failed switch is reported as success and changes nothing more |
| `Charger.Chip.SourceDetect` | overlays/linux/drivers/power/supply/qcom-smbchg.c:947-990 | on a working bus a charging port gets the search and the path enabled; where the switch fails the path is enabled in the old mode; the battery's limits do not move |
| `Charger.FastPortLeftInTheOldMode` | overlays/linux/drivers/power/supply/qcom-smbchg.c:947-990 | one failed write, concretely: the path enabled in low-current mode, neither search nor ceiling set |
| `Charger.ThirdAccessFails` | overlays/linux/drivers/power/supply/qcom-smbchg.c:409-437 | whether or not the first update writes, a failing third access is one of the switch |
| `Charger.OldModeKept` | overlays/linux/drivers/power/supply/qcom-smbchg.c:140-196 | dropping the override does not move a low-current limit |
| `Charger.Chip.SetFastCharge` | overlays/linux/drivers/power/supply/qcom-smbchg.c:610-645 | programs the largest current within the request, or nothing |
| `Charger.Chip.SetFloatVoltage` | overlays/linux/drivers/power/supply/qcom-smbchg.c:488-522 | programs the largest voltage within the request, or refuses it |
| `Charger.Chip.ConfigureCharging` | overlays/linux/drivers/power/supply/qcom-smbchg.c:1393-1433 | success leaves recharge and termination read from the fuel gauge, inhibition on, recharge at 100 mV and everything automatic; only those bits move |
| `Charger.Chip.SetTermIndex` | overlays/linux/drivers/power/supply/qcom-smbchg.c:553-577 | the termination index is programmed as given |
| `Charger.Chip.ProgramBattery` | overlays/linux/drivers/power/supply/qcom-smbchg.c:1448-1466 | success leaves both battery limits programmed; on a working bus it succeeds exactly if the tables offer something for the battery |
| `Charger.Chip.EnableCharging` | overlays/linux/drivers/power/supply/qcom-smbchg.c:467-480 | charging is enabled by its one bit, which is active low |
| `Charger.Chip.ConfigureUsb` | overlays/linux/drivers/power/supply/qcom-smbchg.c:1476-1502 | success leaves the path controlled by commands, port detection on and the search rerun on USB; only those bits move |
| `Charger.PartsMakeStart` | overlays/linux/drivers/power/supply/qcom-smbchg.c:1390-1509 | no later step of the initialisation undoes an earlier one |
| `Charger.Chip.Init` | overlays/linux/drivers/power/supply/qcom-smbchg.c:1390-1509 | success leaves both battery limits programmed, charging and path configured, charging enabled, the termination index as given and, without a charging port, the input limit as it was; on a working bus it succeeds exactly if the tables offer something for the battery, and a charging port gets the search and the path |
| `Charger.Chip.SetProperty` | overlays/linux/drivers/power/supply/qcom-smbchg.c:1305-1338 | each property moves its own registers only and keeps both limits within the battery's; a current is accepted exactly if table and battery allow it, an input limit becomes the best of both modes or suspends the path, any other property is refused |
| `Charger.Chip.LimitsHold` | overlays/linux/drivers/power/supply/qcom-smbchg.c:1305-1338 | programmed limits never exceed the battery's |
| `Charger.Chip.Handle` | overlays/linux/drivers/power/supply/qcom-smbchg.c:947-1338 | one event on a working bus: what it is for, in terms of path, input limit, search and current, and that it leaves the others |
| `Charger.EventDecides` | overlays/linux/drivers/power/supply/qcom-smbchg.c:947-1338 | which events decide the path, the input limit and the current, and to what |
| `Charger.LastOfUnique` | overlays/linux/drivers/power/supply/qcom-smbchg.c:947-1338 | at most one event is the last to decide a matter |
| `Charger.Chip.Run` | overlays/linux/drivers/power/supply/qcom-smbchg.c:947-1338 | over any sequence of property writes and ports, with bus faults anywhere: both limits hold; on a working bus the path, the input limit and the current are each as the last event that decides them left them |
| `VertexBatch.OnScreenAppend` | initramfs/gemini-status-gpu.c:630-650 | a submitted batch adds its vertices, under its view, at the end of the picture |
| `VertexBatch.PictureGrows` | initramfs/gemini-status-gpu.c:651-672 | a buffered vertex adds itself at the end of the picture |
| `VertexBatch.NearHalf` | initramfs/gemini-status-gpu.c:674-685 | the first triangle of a quad shows the near half of its rectangle with the texture laid flat and one look throughout, and nothing else |
| `VertexBatch.FarHalf` | initramfs/gemini-status-gpu.c:674-685 | the second shows the far half, and nothing else |
| `VertexBatch.QuadShowsRectangle` | initramfs/gemini-status-gpu.c:674-685 | every point of the rectangle is shown by one of the two, and by both on the diagonal only |
| `VertexBatch.LastViewSet` | initramfs/gemini-status-gpu.c:596-604 | the view in force is the last one set, its scale not below a twentieth |
| `VertexBatch.NoViewSet` | initramfs/gemini-status-gpu.c:578-592 | or the home view if none was set |
| `VertexBatch.QuadInPlace` | initramfs/gemini-status-gpu.c:674-685 | each quad of a frame has its six vertices in its own place, in drawing order and under the view in force, and nothing else is drawn |
| `VertexBatch.Renderer.Begin` | initramfs/gemini-status-gpu.c:578-592 | a frame starts with an empty picture, the home view and both counters at zero |
| `VertexBatch.Renderer.Flush` | initramfs/gemini-status-gpu.c:630-650 | submitting the buffer leaves the picture as it is; at quad boundaries nothing is lost by the three-vertex guard |
| `VertexBatch.Renderer.EmitVertex` | initramfs/gemini-status-gpu.c:651-672 | a vertex joins the picture; the buffer can be full only where a quad starts |
| `VertexBatch.Renderer.EmitQuad` | initramfs/gemini-status-gpu.c:674-685 | a quad adds its six vertices in order under the present view |
| `VertexBatch.Renderer.SetView` | initramfs/gemini-status-gpu.c:596-604 | a view change applies to later quads only, with the scale clamped from below |
| `VertexBatch.Renderer.Frame` | initramfs/gemini-status-gpu.c:578-685 | any frame puts on screen what drawing each quad at once would; every batch holds whole quads within 24576 vertices, and the counters are those of batches and vertices |
| `GlyphAtlas.SeatInsideExactly` | initramfs/gemini-status-gpu.c:498-502 | glyphs narrower than the atlas, and no others, are seated inside it |
| `GlyphAtlas.SeatKeepsApart` | initramfs/gemini-status-gpu.c:498-515 | a newly seated glyph keeps a free row or column from every earlier one |
| `GlyphAtlas.LineBreakKeeps` | initramfs/gemini-status-gpu.c:498-502 | a new shelf starts below everything placed |
| `GlyphAtlas.SeatIsNext` | initramfs/gemini-status-gpu.c:498-502 | the seat is one column right of the last glyph, or where that leaves no free column at the edge, the start of a shelf one free row below the deepest glyph of the last one |
| `GlyphAtlas.TracksOn` | initramfs/gemini-status-gpu.c:508-515 | the cursor stays right of the last glyph and knows how deep its shelf is |
| `GlyphAtlas.NextPacked` | initramfs/gemini-status-gpu.c:493-515 | a glyph with anything to draw goes to its seat, or is blocked because its shelf would end below the atlas |
| `GlyphAtlas.RowReadsBack` | initramfs/gemini-status-gpu.c:510-512 | each row of a shown glyph, read off the image, is that row of the font's bitmap |
| `GlyphAtlas.BlankElsewhere` | initramfs/gemini-status-gpu.c:510-512 | what no glyph covers stays empty |
| `GlyphAtlas.PaintingElsewhere` | initramfs/gemini-status-gpu.c:510-512 | painting one glyph leaves every glyph apart from it as it was |
| `GlyphAtlas.Packer.CopyRow` | initramfs/gemini-status-gpu.c:511-512 | one row changes exactly its own bytes |
| `GlyphAtlas.Packer.CopyGlyph` | initramfs/gemini-status-gpu.c:510-512 | the rectangle shows the glyph's bitmap, nothing else changes |
| `GlyphAtlas.Packer.BreakLine` | initramfs/gemini-status-gpu.c:498-502 | the cursor moves to the seat of the next glyph |
| `GlyphAtlas.Packer.PlaceGlyph` | initramfs/gemini-status-gpu.c:508-515 | one more glyph is shown and all earlier ones still are |
| `GlyphAtlas.Packer.PackFont` | initramfs/gemini-status-gpu.c:470-517 | a font's glyphs with anything to draw are placed in order, each where it should go, until all are or the first is blocked, which is a failure, as is a lack of memory; earlier fonts stay placed and intact |
| `GlyphAtlas.Packer.PackAll` | initramfs/gemini-status-gpu.c:470-517 | after any fonts: placements inside, pairwise apart with a gutter, the rest of the image empty, and unless packing failed the first four fonts are packed, every drawable glyph shown where its tables say |
| `FieldSplit.UnescapeInvertsEscape` | initramfs/gemini-status.c:2567-2578 | unescaping undoes escaping for every string |
| `FieldSplit.SplitPassesField` | initramfs/gemini-status.c:2596-2609 | splitting runs through an escaped field without finding a separator |
| `FieldSplit.SplitInvertsJoin` | initramfs/gemini-status.c:2596-2609 | splitting a joined record gives back its escaped fields, for every record |
| `FieldSplit.SplitCutsAtUnescaped` | initramfs/gemini-status.c:2596-2609 | any line, well formed or not, is cut at the separators with an even number of backslashes right before them and nowhere else |
| `FieldSplit.UnescapeDropsEscapes` | initramfs/gemini-status.c:2567-2578 | any field, well formed or not, loses exactly its unescaped backslashes with something behind them |
| `FieldSplit.SplittingPasses` | initramfs/gemini-status.c:2596-2609 | passing a character or an escaped pair keeps the split so far |
| `FieldSplit.SplittingSeparates` | initramfs/gemini-status.c:2596-2609 | overwriting a separator closes a field and opens the next |
| `FieldSplit.SplittingEnds` | initramfs/gemini-status.c:2596-2609 | at the end the buffer holds the fields as C strings; with more than eight, the first eight and the unsplit rest |
| `FieldSplit.SplitFields` | initramfs/gemini-status.c:2590-2610 | the in-place split of any line leaves exactly the fields of the reference split and touches nothing else; its last store is past the eight slots if and only if the line has more than eight fields |
| `FieldSplit.UnescapingStep` | initramfs/gemini-status.c:2567-2578 | each step writes one result byte behind the read index |
| `FieldSplit.UnescapeField` | initramfs/gemini-status.c:2567-2578 | the in-place unescape leaves the unescaped string; the write index never overtakes the read index |
| `FieldSplit.FieldsApart` | initramfs/gemini-status.c:2596-2609 | fields of a split line do not overlap |
| `FieldSplit.ReadRecord` | initramfs/gemini-status.c:2567-2617 | a line printing up to eight fields is turned, in its own buffer, into C strings equal to those fields |
| `ConnectScript.Script.LiveOk` | rootfs-overlay/usr/local/sbin/gemini-wifi-connect.sh:249-271 | a live check holds if and only if the device is connected and it takes some network in use for the one asked for: nmcli's escaping, a plain split, and awk's reading and comparing of names included |
| `ConnectScript.SeenUnderOwnName` | rootfs-overlay/usr/local/sbin/gemini-wifi-connect.sh:251-271 | the check takes a network for itself if and only if nmcli has nothing to escape in its name and awk finds the name equal to itself, which it does unless the name looks like a number |
| `ConnectScript.MistakenOnlyFor` | rootfs-overlay/usr/local/sbin/gemini-wifi-connect.sh:251-271 | the check takes another network for the one asked for only if both names look like numbers and are equal as such, or the name asked for has a backslash |
| `ConnectScript.MistakenNames` | rootfs-overlay/usr/local/sbin/gemini-wifi-connect.sh:251-271 | both happen: 100 for 1e2 where awk finds them equal, and a network a:b for a name ending in two backslashes where awk reads two as one |
| `ConnectScript.Script.WaitLive` | rootfs-overlay/usr/local/sbin/gemini-wifi-connect.sh:273-287 | at most one check more than the tries; all of them if none holds |
| `ConnectScript.Script.UpWithPsk` | rootfs-overlay/usr/local/sbin/gemini-wifi-connect.sh:155-173 | a password once given stays known to the wrong-password test |
| `ConnectScript.Script.TrySaved` | rootfs-overlay/usr/local/sbin/gemini-wifi-connect.sh:302-347 | a saved profile that needs no agent is activated and, if that works, watched for the full wait; it ends joined, blamed for its password exactly if activation failed and the log says so, or passed over |
| `ConnectScript.Script.TryOpen` | rootfs-overlay/usr/local/sbin/gemini-wifi-connect.sh:351-367 | what is left then: exit 0 if the network is live by now or its open profile joins, 2 exactly for a secured one, 1 only with the open profile added, activated and, if that worked, watched in vain |
| `ConnectScript.Script.JoinWithoutPassword` | rootfs-overlay/usr/local/sbin/gemini-wifi-connect.sh:300-368 | on success the last act is the check that held behind one of the ways in; otherwise every saved profile without an agent and, for an open network, a new one was tried; it asks for a password only for a secured network that nothing saved could join |
| `ConnectScript.Script.TryExisting` | rootfs-overlay/usr/local/sbin/gemini-wifi-connect.sh:374-390 | a saved profile gets the password and is activated with it; over if it joined, was watched in vain, or failed to activate with the password blamed, which exit 3 says exactly if the log does |
| `ConnectScript.Script.TryNewProfile` | rootfs-overlay/usr/local/sbin/gemini-wifi-connect.sh:392-420 | a new profile is added with the password, activated and watched, and for SAE once more with WPA-PSK; it joins only by a check that held, and gives up only with all of that done |
| `ConnectScript.Script.TryDevice` | rootfs-overlay/usr/local/sbin/gemini-wifi-connect.sh:422-431 | nmcli's own way in gets the password and the full wait, whether or not the command works |
| `ConnectScript.Script.JoinWithPassword` | rootfs-overlay/usr/local/sbin/gemini-wifi-connect.sh:370-434 | it joins exactly through one of its ways in and fails only with all of them tried and watched for the full wait, or shut out by a saved profile whose activation failed with the password blamed; 3 exactly if the log says so; it never asks for one |
| `ConnectScript.Script.Join` | rootfs-overlay/usr/local/sbin/gemini-wifi-connect.sh:289-434 | exit 0 exactly if the last act was a live check that held; if the first check holds it does nothing else, and if only the second does it still joins unless a saved profile's password is blamed; a failure means every way in was tried for the full wait; 2 only without a password; 3 only on evidence; no disconnect; never 0 if no check can see the name |
| `ConnectScript.EscapedNameNeverJoins` | rootfs-overlay/usr/local/sbin/gemini-wifi-connect.sh:249-434 | a join of a network whose name nmcli escapes fails, whatever its commands do and though every check finds that network in use |
| `ConnectScript.PlainNameIsInUse` | rootfs-overlay/usr/local/sbin/gemini-wifi-connect.sh:249-434 | a join of a name that needs no escaping and does not look like a number succeeds only if a check found that very network in use |
| `ConnectScript.JoinOnAnother` | rootfs-overlay/usr/local/sbin/gemini-wifi-connect.sh:289-434 | while only some other network is in use, a join succeeds if and only if the check takes that one for the one asked for and the network asked for is no enterprise one; it then does nothing but the check |
| `ConnectScript.Script.Forget` | rootfs-overlay/usr/local/sbin/gemini-wifi-connect.sh:41-67 | forgetting deletes, and leaves the network if it is in use |
| `ConnectScript.Invoke` | rootfs-overlay/usr/local/sbin/gemini-wifi-connect.sh:9-67 | a join is as thorough as `Join`, a forget leaves the trace of one; exit 0 means a live check held, if and only if the network is not called forget, no password is given, or nmcli is missing; every exit is one the HUD's runs count on |
| `ConnectScript.ReadAsMeant` | initramfs/gemini-wifi-flow.h:125-141 | the HUD reads every exit of a join as the script means it: success, a password asked for, a password blamed, each by its code and by its words alone |
| `ConnectScript.RefusalsArePlain` | rootfs-overlay/usr/local/sbin/gemini-wifi-connect.sh:9-40 | the messages for a missing name and a missing nmcli say nothing the HUD looks for |
| `ConnectScript.JoinAnswers` | initramfs/gemini-wifi-flow.h:125-141 | a join's exit is one the HUD's runs count on, whether it ran to its end or was killed anywhere in its output: a password asked for only where none was given, and without a name neither success nor a word about passwords |
| `WifiFlow.LacksFirst` | initramfs/gemini-wifi-flow.h:125-141 | a message without the first letter of a phrase the HUD looks for does not contain it |
| `WifiHud.Hud.MarkApActive` | initramfs/gemini-status.c:1406-1414 | exactly the rows of one name are marked in use |
| `WifiHud.Hud.MarkApInactive` | initramfs/gemini-status.c:1416-1426 | the rows of one name, or all for none, lose the mark |
| `WifiHud.Hud.ApIsCurrent` | initramfs/gemini-status.c:1463-1476 | a network is current if live or first-listed in use, never if held back |
| `WifiHud.Hud.ApplyWifiSsid` | initramfs/gemini-status.c:2359-2404 | keeps `Valid`; a name touches the live network and the hold only: a held-back network never becomes live, and the hold ends exactly if another network is named that is no sibling of the one being joined |
| `WifiHud.Hud.ApplyActiveAp` | initramfs/gemini-status.c:1624-1645 | keeps `Valid`; a new live name is that of a row in use, never the held-back network's, and the hold ends only with another network in use |
| `WifiHud.Hud.WifiConnect` | initramfs/gemini-status.c:2184-2226 | the join shows at once and leaves the connection up, under the name that is in the buffer after the copy; behind a running join it is queued without displacing that network's password, otherwise it replaces whatever process ran, and is stuck exactly if its own does not start |
| `WifiHud.Hud.WifiSubmitPass` | initramfs/gemini-status.c:2228-2257 | keeps `Valid` with one more join owed; an accepted password is remembered and waits behind the join under way, or starts a join: of its network if none was joined before, else of no network, its name having been printed into its own buffer |
| `WifiHud.Hud.WifiForget` | initramfs/gemini-status.c:2259-2302 | keeps `Valid`; the network is held back, not live, not current, no join shown, nothing queued, whether or not the process starts; a second forget waits for the first |
| `WifiHud.Hud.WifiJoinPicked` | initramfs/gemini-status.c:2304-2325 | keeps `Valid` with at most one more join started, with the password known for that network or none; refused while joining, forgetting, on the network, or for an enterprise one |
| `WifiHud.Hud.KickPending` | initramfs/gemini-status.c:2327-2357 | keeps `Valid`; nothing starts beside a running process; a queued join goes first and even with the screen off, otherwise one wish starts or none is lost |
| `WifiHud.Hud.MaybeConfirmJoin` | initramfs/gemini-status.c:2422-2459 | keeps `Valid`; the window stays open exactly while neither its time is up nor the wanted network is live; on the network exactly its rows are marked in use |
| `WifiHud.Hud.ParseInfo` | initramfs/gemini-status.c:2461-2540 | keeps `Valid`; a connection is believed unless it may be the forgotten one, and the hold ends exactly with a device that is down |
| `WifiHud.Hud.ParseScan` | initramfs/gemini-status.c:2580-2639 | keeps `Valid`; the rows are those found, marked where the scan marked them but for the held-back network; a new live name is that of a row in use |
| `WifiHud.Hud.ParseLink` | initramfs/gemini-status.c:2641-2697 | keeps `Valid`; a new live name is one the report carries, and the hold ends exactly if it names another network that is no sibling of the one being joined |
| `WifiHud.Hud.PollJob` | initramfs/gemini-status.c:2699-2871 | keeps `Valid`; a join that succeeds off its network opens the confirm window with link and info wanted, one on it closes at once; any other end stops the joining unless a queued join starts; a blamed password opens the sheet for the joined network and is forgotten exactly if remembered for it; a failed forget shows the network, another takes its rows, its password and, if live, the connection; a report of a process that does not run changes nothing |
| `WifiHud.Hud.Handle` | initramfs/gemini-status.c:2119-2871 | every event does what it is for, keeps `Valid`, owes one more join exactly for a join tap or a submitted password, leaves the HUD stuck only by a start that failed, and is the step that runs are made of |
| `WifiHud.Hud.MainLoop` | initramfs/gemini-status.c:4778-4943 | the loop over any possible events does at each what it is for and keeps `Valid`: joins within what was asked for, the mode law with its one exception, held-back networks out of sight |
| `WifiEffects.NameEffect` | initramfs/gemini-status.c:2359-2404 | what a reported name may change, with the exact condition for the hold to end |
| `WifiEffects.ActiveEffect` | initramfs/gemini-status.c:1624-1645 | where a new live name comes from when the list is looked through |
| `WifiEffects.ScanEffect` | initramfs/gemini-status.c:2580-2639 | what a scan leaves of the rows, the live network and the hold |
| `WifiEffects.LinkEffect` | initramfs/gemini-status.c:2641-2697 | the same of a link report with any number of names, by induction over them |
| `WifiEffects.JoinEffect` | initramfs/gemini-status.c:2184-2226 | what a join shows, queues and starts, from any state and under any name, also none |
| `WifiEffects.SubmitEffect` | initramfs/gemini-status.c:2228-2257 | what becomes of a submitted password in any good state, and of the name it is for |
| `WifiEffects.TapEffect` | initramfs/gemini-status.c:2304-2325 | what a join tap starts, and when it does nothing |
| `WifiEffects.ForgetEffect` | initramfs/gemini-status.c:2259-2302 | a forget tap takes the network out of sight and drops what could bring it back, before its process does anything |
| `WifiEffects.ConfirmEffect` | initramfs/gemini-status.c:2422-2459 | the window is over after its time, and early exactly on the wanted network |
| `WifiEffects.KickEffect` | initramfs/gemini-status.c:2327-2357 | what queued work starts, in which order, and that a wish that does not start is kept |
| `WifiEffects.InfoEffect` | initramfs/gemini-status.c:2461-2540 | what a device report is believed for under the hold |
| `WifiEffects.StartEffect` | initramfs/gemini-status.c:2119-2168 | a scan, link, info or radio request runs if nothing runs and its process starts, and is wanted otherwise |
| `WifiEffects.NameWithin` | initramfs/gemini-status.c:2359-2381 | the name in a report stands between leading blanks and the end of the line, without the HUD's own profile prefix unless that is all there is; blanks and two dashes carry none |
| `WifiEffects.SiblingHasSuffix` | initramfs/gemini-status.c:2386-2394 | a name is short for another exactly if that one adds a suffix set off by a dash or an underscore |
| `WifiEffects.FirstRowEffect` | initramfs/gemini-status.c:1624-1645 | the name taken is that of the first row in use or already live that is not held back, or none |
| `WifiEffects.CurrentMeans` | initramfs/gemini-status.c:1463-1476 | a network is current exactly if the HUD is connected, it is the live one or the first of its name is listed in use, and it is not held back |
| `WifiEnds.JoinEndEffect` | initramfs/gemini-status.c:2747-2839 | what the end of a join leaves, by its verdict: window, sheet, remembered password, wishes and rows |
| `WifiEnds.ForgetEndEffect` | initramfs/gemini-status.c:2840-2868 | what both ends of a forget leave: rows, live network, password, sheet |
| `WifiEnds.ReportEffect` | initramfs/gemini-status.c:2699-2871 | what any process's report leaves before the next work starts |
| `WifiEnds.ReportStartsNothing` | initramfs/gemini-status.c:2699-2871 | a report starts no join and queues none; a success drops the one queued for the same network |
| `WifiEnds.JoinEndLeads` | initramfs/gemini-status.c:2747-2871 | the end of a join and the start of the next work together: connecting goes on only in the window or with a queued join, and a success asks for info and link |
| `WifiEnds.EndEffect` | initramfs/gemini-status.c:2699-2871 | a process that ends is reported and then the next work starts, at most one join of those queued |
| `WifiEnds.EventEffect` | initramfs/gemini-status.c:2119-2871 | every event does what it is for, from every state the HUD can be in |
| `WifiEnds.RunEffect` | initramfs/gemini-status.c:2119-2871 | and so at every step of every run |
| `WifiPassword.SubmitJoinsItsNetworkExactly` | initramfs/gemini-status.c:2228-2257 | an accepted password submitted while not connecting starts a join of the network it is for if and only if no network was joined before; otherwise one of no network |
| `WifiPassword.RequestOpensSheet` | initramfs/gemini-status.c:2809-2830 | a probe that is asked for a password ends on the password sheet for its network, with nothing running for it |
| `WifiPassword.AskedPasswordGoesAstray` | initramfs/gemini-status.c:2184-2257 | for any network and password: the password typed on a sheet that a probe opened starts a join of no network |
| `WifiPassword.NamelessJoinFails` | initramfs/gemini-wifi-flow.h:248-274 | a join of no network ends as a plain failure |
| `WifiPassword.SecondPasswordJoins` | initramfs/gemini-status.c:2184-2257 | and the password typed after that failure joins the selected network |
| `WifiPassword.FirstPasswordGoesAstray` | initramfs/gemini-status.c:2184-2257 | a run from the start to such a join: scan, select, tap, be asked, type |
| `WifiPassword.ExitUnlearns` | initramfs/gemini-status.c:2699-2871 | taking a report keeps the remembered password unless the script blamed it or its network was forgotten |
| `WifiPassword.PasswordLostOnlyOnEvidence` | initramfs/gemini-status.c:2119-2871 | over every event, the remembered password is replaced only by an accepted one and lost only with a report that blames it or forgets its network |
| `WifiRuns.JoinKeeps` | initramfs/gemini-status.c:2184-2226 | a join keeps all invariants and is stuck exactly if its process does not start |
| `WifiRuns.KickKeeps` | initramfs/gemini-status.c:2327-2357 | so does running queued work |
| `WifiRuns.TapKeeps` | initramfs/gemini-status.c:2304-2325 | a join tap adds at most one join owed |
| `WifiRuns.SubmitKeeps` | initramfs/gemini-status.c:2228-2257 | a submitted password, started or queued, owes one join and keeps all invariants, also when its name is lost on the way |
| `WifiRuns.ForgetKeeps` | initramfs/gemini-status.c:2259-2302 | a forget keeps all invariants from any state |
| `WifiRuns.NameKeeps` | initramfs/gemini-status.c:2359-2404 | no reported name makes the held-back network live |
| `WifiRuns.ConfirmKeeps` | initramfs/gemini-status.c:2422-2459 | closing the window marks no held-back network |
| `WifiRuns.JoinEndKeeps` | initramfs/gemini-status.c:2747-2839 | every outcome of a join keeps all invariants |
| `WifiRuns.ForgetEndKeeps` | initramfs/gemini-status.c:2840-2868 | so does the end of a forget |
| `WifiRuns.ExitKeeps` | initramfs/gemini-status.c:2699-2871 | and the end of every process |
| `WifiRuns.RetryNeverHappens` | initramfs/gemini-status.c:2790-2796 | the retry branch is never taken: a password learnt during an empty probe is queued instead |
| `WifiRuns.OnlyEvidenceDecides` | initramfs/gemini-wifi-flow.h:248-274 | in every good state the end of a join is decided without the password flag and the remembered password: a network is blamed only if the script said so, and a password asked for only if none is known or queued |
| `WifiRuns.SuccessIsNamed` | initramfs/gemini-status.c:2774-2788 | the confirm window opens only for a join that was given a name |
| `WifiRuns.StepKeeps` | initramfs/gemini-status.c:2119-2871 | every event keeps every invariant: modes, hold, budget, no unanswered probe, the process joining the network shown |
| `WifiRuns.RunKeeps` | initramfs/gemini-status.c:2119-2871 | every run does |
| `WifiRuns.ModesExclusive` | initramfs/gemini-status.c:2184-2357 | in every reachable state connecting holds iff exactly one of join process and confirm window does, unless a join is stuck unstarted; forgetting iff a forget process runs; never both; the process joins the network shown, and one of no network has a password and never gets to the window |
| `WifiRuns.ForgottenStaysAway` | initramfs/gemini-status.c:2259-2302 | in every reachable state a held-back network is not live, not marked, not current |
| `WifiRuns.JoinsAreAskedFor` | initramfs/gemini-status.c:2228-2341 | no run starts more joins than it has join taps and submitted passwords |
| `WifiRuns.NoRetryInAnyRun` | initramfs/gemini-status.c:2790-2796 | the retry branch is dead in every reachable state |
| `WifiRuns.FailedStartSticks` | initramfs/gemini-status.c:2225-2226 | one join process that does not start leaves the HUD connecting with nothing running |
| `WifiRuns.OnlyThoseFree` | initramfs/gemini-status.c:2228-2308 | a stuck HUD with nothing queued stays stuck through an event if and only if it is neither an accepted password nor the forgetting of a selected network |
| `WifiRuns.StuckForGood` | initramfs/gemini-status.c:2228-2308 | so over any run without those two it stays stuck |
| `WifiRuns.QueuedPasswordFrees` | initramfs/gemini-status.c:2327-2357 | a password queued while stuck gets it out at the next kick exactly if that start works |
| `WifiRuns.HoldEndsOnlyBy` | initramfs/gemini-status.c:2384-2400 | the hold ends only with a new join, another forget, a radio reported down or another network named |
| `WifiRuns.LinkReleases` | initramfs/gemini-status.c:2641-2697 | a link report releases the hold only by naming another network |
| `WifiRuns.ScanReleases` | initramfs/gemini-status.c:2580-2639 | a scan releases it only with another network in use |

## Left out

- sysfs, DRM/KMS, EGL/GBM, evdev, D-Bus and ioctl calls: only their effect on the modelled state is kept; delays are points where other steps may come.
- HUD layout, fonts, animation, touch mapping and metric sampling; status texts and the failure kind shown (`connect_fail`, `last_fail_kind`).
- Bonded DSI, DSC, lane tables, device tree parsing: the single-link case is modelled.
- `pm_runtime` counts around power-on: the path where enabling the link clocks fails skips the matching put, and nothing is claimed about it.
- Charge termination current: its index is a parameter of initialisation; intermediate register values while low-current mode is set, because its two bits change one after the other.
- Capacity scaling, third-generation gauge conversions, JEITA, brightness clamps, the base-address guard and secure register writes of the gauge.
- FgAccess: hardware availability is assumed to rise only while the request bit is set and to fall only while it is clear.
- FgSram.FuelGauge.Read: offsets are 0 to 3 and addresses stay below 64 KiB, as every caller has them.
- FgSram.FuelGauge.Write: the same, and what a pass spills past its window lands outside the control registers, which `LayoutsSpillHarmlessly` proves of both chips.
- Wled.Backlight.ModuleEnable: register writes succeed and the over-voltage line exists; string detection appears only as its giving up.
- DsiRead.DsiHost.CmdRx: the panel repeats the same payload on every pass, and the receive buffer has at least max(16, length + 6) bytes, as the driver's 4 KiB buffer has for every length up to 4090.
- JdiPanel.Panel.Enable: status reads for the log and the low-power mode flag of transfers are not modelled.
- Charger.Chip.GetInputLimit: the hardware does not change its own configuration registers, and a failed write leaves the register as it was.
- VertexBatch.Renderer.Frame: the renderer is ready and floats are reals.
- GlyphAtlas.Packer.PackFont: glyphs are narrower than the atlas; `SeatInsideExactly` shows that a wider one is seated across its edge.
- FieldSplit.SplitFields: the store past the eighth slot is stated, not what it overwrites. Cutting the output into lines, and fields kept escaped because nobody reads them, are left out.
- ConnectScript.Script.Join: looking up profiles, switching the radio on and what commands print are inputs; each command may turn out either way, and each live check may find any device state and any networks in use. Which texts look like numbers to awk, and which of those are equal, are inputs.
- WifiHud.Hud.WifiConnect: the C language does not define what printing a string into its own buffer leaves there. The model has it empty, as the `snprintf` of glibc and musl leaves it (`WifiState.SelfCopied`).
- WifiHud.Hud.WifiSubmitPass: whether the chosen network is an enterprise one is an input of the tap, and so is whether a process can be started.
- WifiHud.Hud.ParseInfo: the report is taken as parsed (device seen, up, busy); names in link and scan reports are arbitrary strings. Network names are shorter than 96 bytes, so no copy truncates them.
- WifiHud.Hud.KickPending: a queued forget is never set anywhere in the program and is not modelled. The HUD's globals are one record field of the class, updated field by field.
- WifiRuns.HoldEndsOnlyBy: says what may end the hold, not that each of these always does.
- A join process killed from outside: `JoinAnswers` covers a cut-off output of a join, not of a forget action reached through a network called "forget".
- Build, flash and release scripts, `init.c`, vendored scripts and documentation.
