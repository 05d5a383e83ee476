# Time keeping, watchdog and logger of the homeplate e-paper controller

This project models three sequential pieces of the homeplate firmware (an ESP32 that drives
an e-paper display and sleeps between refreshes) and proves properties of the model.

- **Time keeping** (`src/time.cpp`, module `TimeSync`). The firmware keeps two clocks: the
  battery-backed clock chip on the display board and the ESP32's internal clock, which
  carries a timezone offset. At startup it reads the chip's "set" flag and takes the
  timezone offset from the chip's epoch. It then distrusts the chip when the internal
  clock reads a time before 2000-01-01. Next it decides whether to start the NTP
  synchronisation task. That task makes up to five NTP requests, with a back-off after
  every failed request except the last. The first answer is committed once, to both
  clocks. The getters for weekday, hour and minute report -1 until the clock is known to
  be set. The process-wide globals (`rtcSet`, `ntpSynced`, the `rtc` object, the chip) are
  fields of the class `TimeKeeper`. The I2C bus lock is a flag that every chip access
  requires.
- **Watchdog manager** (`src/watchdog.h`, module `Watchdog`). This is a two-flag state
  machine (`initialized`, `enabled`) over ESP-IDF's task watchdog. Every call into the
  timer is appended to `timerCalls`, so "touches the timer" and "does nothing" can be
  stated. Whether the timer accepts a call is an input. The invariant
  `enabled ==> initialized` (`Valid`) holds after construction and is kept by every
  operation.
- **Logger** (`src/logger.h`, module `Logging`). It has a level threshold and five
  severity wrappers. Serial output is a sequence of lines that only grows. A message
  becomes the line `[LEVEL][TAG] message\n` exactly when its severity is at or above
  the threshold. `ParseLine` inverts `FormatLine`: it reads the level name, tag and
  message back from a line whenever the tag contains no `]`.

The NTP outcomes are a sequence `outcomes`: `outcomes[i]` is `Some(epoch)` when request
`i` succeeds and `None` when `forceUpdate` fails. The Timezone rule is the function
`toLocal`, fixed when a `TimeKeeper` is built. The calendar fields that ESP32Time derives
from the clock are a `Calendar` value. Its ranges are not assumed; each getter states
what it reports for an in-range field. The build-time and persisted
inputs are parameters of `SetupTimeAndSyncTask`: whether `NTP_SERVER` is defined,
`bootCount`, `sleepBoot` and `NTP_SYNC_INTERVAL` (which must be positive).

Two points of the code are easy to misread, and the model follows the code in both:

- The plausibility check (`src/time.cpp:107`) compares the *internal* clock's epoch
  (`getLocalEpoch`, read at line 96 before anything changes, which is UTC without the
  timezone offset) with 946684800. It does not compare the chip's epoch.
  `SetupTimeAndSyncTask` states exactly this.
- With `rtcSet` true on a wake from sleep, boot 10 with interval 5 *does* trigger a
  resync, because `10 % 5 == 0` (`ResyncOnBootTen`).

## Model

| member | source | states |
|---|---|---|
| TimeSync.TzOffset | src/time.cpp:16-20 | the offset added to the UTC epoch gives the Timezone rule's local time: `epoch + offset == toLocal(epoch)`, for any rule |
| TimeSync.ResyncNeeded | src/time.cpp:114-116 | a resync is wanted whenever the clock is not set and on every cold boot. On a wake from sleep with the clock set, it is wanted exactly when the boot count is a multiple of `NTP_SYNC_INTERVAL` |
| TimeSync.ResyncWithinInterval | src/time.cpp:114-116 | every run of `NTP_SYNC_INTERVAL` consecutive boot counts contains a multiple of the interval. At that boot the resync condition holds whatever `rtcSet` and `sleepBoot` are, so the task starts there when `NTP_SERVER` is defined |
| TimeSync.ResyncPeriodic | src/time.cpp:114 | the interval-driven resync condition repeats with period `NTP_SYNC_INTERVAL` |
| TimeSync.ResyncOnBootTen | src/time.cpp:114-116 | concrete cases: boot 10 resyncs for intervals 5 and 10 and not for 3, with the clock set on a sleep boot |
| TimeSync.RemapDayOfWeek | src/time.cpp:143-152 | a raw weekday 0..6 is reported as a day in 1..7, in both week conventions (that it maps back is `DayOfWeekBijection`) |
| TimeSync.UnmapDayOfWeek | src/time.cpp:143-152 | the proposed inverse of the remapping takes a reported day 1..7 to a raw weekday 0..6 (that it is the inverse is `DayOfWeekBijection`) |
| TimeSync.DayOfWeekBijection | src/time.cpp:146-152 | in both week conventions the remapping and its inverse are mutually inverse on 0..6 and 1..7, so the remapping is a bijection |
| TimeSync.DayOfWeekConventions | src/time.cpp:143-152 | for every weekday, the remapping takes ESP32Time's number (Sunday 0 .. Saturday 6, `EspIndex`) to that day's number in the chosen convention, independently tabulated: Monday 1 .. Sunday 7 (`MondayFirst`) or Sunday 1 .. Saturday 7 (`SundayFirst`) |
| TimeSync.RetryLoop | src/time.cpp:32-88 | from any iteration, the loop makes at most 5 requests in all and takes one back-off per request except the last. The epoch it fetches is the answer to its last request, every earlier request failed, and it fetches nothing only after the fifth request failed |
| TimeSync.NtpRun | src/time.cpp:33-51 | the loop started from its first iteration makes 1 to 5 requests and takes one back-off fewer than that. The committed epoch is the answer to the last request, every earlier request failed, and nothing is committed only when all five failed |
| TimeSync.FailuresThenSuccess | src/time.cpp:35-51 | k failed requests then a success (k < 5) give exactly k + 1 requests, k back-offs and the k-th answer |
| TimeSync.AllRequestsFail | src/time.cpp:44-49 | five failed requests give 5 requests, 4 back-offs (none after the last failure) and no epoch |
| TimeSync.FetchedIffSomeSuccess | src/time.cpp:35-52 | an epoch is committed iff one of the first five requests succeeds |
| TimeSync.TimeKeeper.LocalEpoch | src/time.cpp:96 | `getLocalEpoch` reads the internal clock's UTC epoch. The stored timezone offset is not applied, as the differences with UTC epochs at `src/time.cpp:67` and `:102` require |
| TimeSync.TimeKeeper.constructor | src/time.cpp:11-14 | `ntpSynced` and `rtcSet` start false; the bus is free; no clock has been written |
| TimeSync.TimeKeeper.I2cStart | src/time.cpp:59 | the bus lock is taken only when free (not re-entrant) |
| TimeSync.TimeKeeper.I2cEnd | src/time.cpp:64 | the bus lock is released by its holder |
| TimeSync.TimeKeeper.RtcIsSet | src/time.cpp:98 | the chip's "set" flag, readable only while the bus is held |
| TimeSync.TimeKeeper.RtcGetEpoch | src/time.cpp:100 | the chip's epoch, readable only while the bus is held |
| TimeSync.TimeKeeper.RtcSetEpoch | src/time.cpp:62 | writes the chip's epoch while the bus is held, counting the write; the chip's later "set" flag is an input |
| TimeSync.TimeKeeper.SetTime | src/time.cpp:63 | sets the internal clock's epoch, counting the write |
| TimeSync.TimeKeeper.GetNtpSynced | src/time.cpp:22-25 | reports the `ntpSynced` flag |
| TimeSync.TimeKeeper.SetupTimeAndSyncTask | src/time.cpp:94-127 | afterwards `rtcSet` holds iff the chip reports set and the internal clock's UTC epoch read at entry (the offset not applied) is at or after 2000-01-01. The offset becomes `TzOffset` of the chip's epoch only when the chip reports set. The sync task starts iff an NTP server is configured and the resync condition holds for the downgraded `rtcSet`. Nothing else changes and the bus is released |
| TimeSync.TimeKeeper.NtpSync | src/time.cpp:28-91 | the request and back-off counts are those of `RetryLoop`. If every request fails, the whole state is unchanged. Otherwise both the chip and the internal clock are written exactly once with the fetched epoch, `ntpSynced` becomes true, the offset is `TzOffset` of the fetched epoch, `rtcSet` is re-read from the chip after the write, and the bus is released |
| TimeSync.TimeKeeper.GetDayOfWeek | src/time.cpp:137-153 | -1 whenever `rtcSet` is false, whatever the clock; otherwise, for a raw weekday in 0..6, a day 1..7 that maps back to it |
| TimeSync.TimeKeeper.GetHour | src/time.cpp:155-160 | -1 whenever `rtcSet` is false, otherwise the clock's hour; for an hour in 0..23, -1 means exactly "not set" |
| TimeSync.TimeKeeper.GetMinute | src/time.cpp:162-167 | -1 whenever `rtcSet` is false, otherwise the clock's minute; for a minute in 0..59, -1 means exactly "not set" |
| Watchdog.WatchdogManager.constructor | src/watchdog.h:24-25 | both flags start false, so the invariant `enabled ==> initialized` holds initially |
| Watchdog.WatchdogManager.Init | src/watchdog.h:34-51 | when already initialized: returns true, calls no timer function, changes nothing. Otherwise calls the timer's init once. On success both flags become true and it returns true; on failure it returns false with both flags unchanged. Keeps the invariant |
| Watchdog.WatchdogManager.Subscribe | src/watchdog.h:57-72 | when not initialized: returns false without calling the timer. Otherwise adds the task and returns the timer's result. Never changes either flag and keeps the invariant |
| Watchdog.WatchdogManager.Unsubscribe | src/watchdog.h:77-91 | when not initialized: returns false without calling the timer. Otherwise deletes the task and returns the timer's result. Never changes either flag and keeps the invariant |
| Watchdog.WatchdogManager.Reset | src/watchdog.h:97-101 | feeds the timer iff initialized and enabled; otherwise nothing happens; no flag changes, keeps the invariant |
| Watchdog.WatchdogManager.Disable | src/watchdog.h:106-111 | clears `enabled` only when initialized, never touches `initialized` or the timer, keeps the invariant |
| Watchdog.WatchdogManager.Enable | src/watchdog.h:116-121 | sets `enabled` only when initialized, never touches `initialized` or the timer, keeps the invariant |
| Watchdog.WatchdogManager.IsInitialized | src/watchdog.h:126-128 | reports `initialized` and changes nothing |
| Watchdog.WatchdogManager.IsEnabled | src/watchdog.h:133-135 | reports `enabled` and changes nothing; under the invariant, enabled implies initialized |
| Watchdog.WatchdogManager.Deinit | src/watchdog.h:140-147 | from the initialized state: deinitialises the timer once and clears both flags. Otherwise changes nothing |
| Watchdog.UsageExample | src/watchdog.h:152-174 | the documented sequence (init, subscribe, feed, disable around a long operation, enable) reaches the timer as init, add and two feeds; the feed while disabled is dropped |
| Logging.LevelString | src/logger.h:32-41 | a name other than "UNKNOWN" exactly for the levels 0..4, drawn from DEBUG, INFO, WARN, ERROR, CRIT, UNKNOWN |
| Logging.LevelStringInjective | src/logger.h:33-38 | distinct levels 0..4 print under distinct names |
| Logging.Emits | src/logger.h:44 | a message passes the filter exactly when the early return `level < currentLevel` is not taken |
| Logging.CriticalAlwaysEmitted | src/logger.h:91-96 | a critical message passes at every valid threshold |
| Logging.DebugOnlyAtDebug | src/logger.h:63-68 | among valid thresholds, a debug message passes only at DEBUG |
| Logging.EmitsUpward | src/logger.h:11-17 | since levels are totally ordered, whatever passes the threshold, every more severe message passes too |
| Logging.FormatLine | src/logger.h:48-51 | the line starts with `[`, ends with a newline and is six characters longer than its three fields |
| Logging.ParseFormatLine | src/logger.h:48-51 | the line shape is unambiguous: for a tag without `]`, the level name, tag and message are recovered from the line |
| Logging.Logged | src/logger.h:43-51 | the output gains exactly the formatted line when the level passes the threshold, and is unchanged otherwise |
| Logging.Logger.constructor | src/logger.h:30 | the logger starts at the given threshold with no output |
| Logging.Logger.SetLevel | src/logger.h:55-57 | the threshold becomes the given level and the output is untouched |
| Logging.Logger.GetLevel | src/logger.h:59-61 | reports the threshold and changes nothing |
| Logging.Logger.Log | src/logger.h:43-52 | appends one formatted line iff `level >= currentLevel`, otherwise leaves the output unchanged; never changes the threshold |
| Logging.Logger.Debug | src/logger.h:63-68 | logs at DEBUG; at a valid threshold it prints iff the threshold is DEBUG |
| Logging.Logger.Info | src/logger.h:70-75 | logs at INFO through the same filter |
| Logging.Logger.Warning | src/logger.h:77-82 | logs at WARNING through the same filter |
| Logging.Logger.Error | src/logger.h:84-89 | logs at ERROR through the same filter |
| Logging.Logger.Critical | src/logger.h:91-96 | logs at CRITICAL; at every valid threshold it appends its line |
| Logging.SetThenGetLevel | src/logger.h:55-61 | after `setLevel(l)` then `getLevel()`, the threshold is `l`, the value read back is `l`, and nothing is printed |

## Left out

- `src/mutex_guards.h` is not part of this model. Its FreeRTOS semaphores, blocking waits
  and lock ordering are about concurrency, which a sequential model cannot express. The
  `i2cStart`/`i2cEnd` pair in `src/time.cpp` is modelled as a non-re-entrant "bus held"
  flag that every chip access requires.
- Wall-clock time and RTOS plumbing are replaced as follows. `waitForWiFi` is left out.
  `vTaskDelay` becomes the back-off counter `delays`. `xTaskCreate` becomes the result
  `syncTaskStarted`. `vTaskDelete` is the return of `NtpSync`. The 30 s back-off and the
  watchdog timeout are kept only as counts and parameters.
- `NTPClient` (`begin`, `forceUpdate`, `getEpochTime`, `end`) becomes the sequence of
  outcomes. `NtpSync` requires an outcome for each of the five possible requests.
- ESP32Time is not part of this model. The calendar breakdown (`getDayofWeek`,
  `getHour`, `getMinute`) is an input.
- TimeSync.TimeKeeper.LocalEpoch: `getLocalEpoch` is taken to be the internal clock's
  UTC epoch with no offset. This agrees with ESP32Time's description ("without offset")
  and with the code's use of it at `src/time.cpp:67` and `:102`, where it is subtracted
  from UTC epochs. The code is not consistent about this, though. After the sync,
  `src/time.cpp:75-78` prints the same call as the "synced local UNIX time" once the
  offset has been stored. That line only prints, so the model does not depend on it.
  Under this reading, the pre-2000 downgrade at `src/time.cpp:107` is not shifted by
  the timezone offset.
- The Timezone library is not part of this model. `toLocal` is an arbitrary function,
  and the abbreviation it returns through `tcr` is dropped.
- Machine widths are not modelled. Epochs and offsets are unbounded integers, including
  the unsigned `localTime`, the `uint32_t` chip epoch and the signed offset stored in
  ESP32Time's unsigned field (`src/time.cpp:72`).
- `Serial.printf` and `printDebug` diagnostics are not modelled. This includes the
  differences computed only for printing (`src/time.cpp:67-69`, `src/time.cpp:75-78`,
  `src/time.cpp:102`, `src/time.cpp:105`). The chip read at `src/time.cpp:60`, used only
  for printing, is kept as a read.
- TimeSync.TimeKeeper.NtpSync: the sync runs as its own FreeRTOS task (`src/time.cpp:118-124`),
  but the model commits its effects in one step, with no other code interleaved. States
  in the middle of the commit are therefore not covered. Examples are a getter that reads
  `rtcSet` between the chip write (`src/time.cpp:62`) and its re-read
  (`src/time.cpp:81`), and `ntpSynced` being true before the offset changes
  (`src/time.cpp:71-74`).
- `fullDateString`, `timeString` and `printDebugStackSpace` produce display text or
  diagnostics only.
- Logging.Logger.Log: the message is taken as already formatted text. The `vsnprintf`
  formatting and the cut of the message to the 255 characters of its 256-byte buffer are
  not modelled, because strings here are character sequences, not bytes.
- The initial logger threshold (`GLOBAL_LOG_LEVEL`, `src/logger.h:20-26`) and the
  watchdog's static flags are defined in `logger.cpp` and `watchdog.cpp`. Those files are
  not part of this model. The threshold is a constructor parameter. The flags start false.
- Watchdog.WatchdogManager.Init: the default arguments of `init` (`WDT_TIMEOUT_SEC` and
  panic on timeout, `src/watchdog.h:34`) are not modelled as defaults, because Dafny
  methods have none. Callers pass them explicitly as `WdtTimeoutSec` and `true`, as
  `UsageExample` does.
- The watchdog's subscribed tasks are not tracked, because the manager itself does not
  track them. Only its calls into the timer are recorded.
