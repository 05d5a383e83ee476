/**
 * Time bookkeeping of the e-paper controller: the battery-backed clock chip on the
 * display board, the ESP32's internal clock with its timezone offset, the startup
 * plausibility check, the decision to resynchronise over NTP, the bounded NTP retry
 * loop that commits a fetched epoch to both clocks, and the getters that report
 * -1 while the clock is not known to be set.
 */
module TimeSync {

  import opened Options

  /** 2000-01-01T00:00:00Z as a Unix epoch: an internal clock below it is implausible. */
  const Jan1st2000: int := 946684800

  /** At most this many NTP requests are made by one synchronisation task. */
  const MaxNtpRetries: nat := 5

  /**
   * The timezone offset in seconds at `epoch` under the configured rule `toLocal`
   * (the Timezone library's conversion from UTC to local time). It may be negative.
   */
  function TzOffset(toLocal: int -> int, epoch: int): (offset: int)
    ensures epoch + offset == toLocal(epoch)
  {
    toLocal(epoch) - epoch
  }

  /**
   * A resync is wanted when the clock is not set, the boot is a cold boot rather than a
   * wake from deep sleep, or the boot count is a multiple of the resync interval.
   */
  function ResyncNeeded(rtcSet: bool, sleepBoot: bool, bootCount: nat, syncInterval: nat): (needed: bool)
    requires syncInterval > 0
    ensures !rtcSet ==> needed
    ensures !sleepBoot ==> needed
    ensures rtcSet && sleepBoot ==> (needed <==> bootCount % syncInterval == 0)
  {
    !rtcSet || !sleepBoot || bootCount % syncInterval == 0
  }

  /**
   * Every run of `syncInterval` consecutive boot counts holds a count that is a multiple
   * of the interval, so that boot wants a resync whatever the clock and boot kind are then.
   */
  lemma ResyncWithinInterval(firstBoot: nat, syncInterval: nat)
    requires syncInterval > 0
    ensures exists boot :: firstBoot <= boot < firstBoot + syncInterval
                           && boot % syncInterval == 0
                           && forall rtcSet, sleepBoot :: ResyncNeeded(rtcSet, sleepBoot, boot, syncInterval)
  {
    var q, r := firstBoot / syncInterval, firstBoot % syncInterval;
    assert firstBoot == q * syncInterval + r;
    var k := if r == 0 then q else q + 1;
    var boot := k * syncInterval;
    DivModUnique(boot, syncInterval, k, 0);
    assert forall rtcSet, sleepBoot :: ResyncNeeded(rtcSet, sleepBoot, boot, syncInterval);
  }

  /** The interval-driven resync repeats exactly every `syncInterval` boots. */
  lemma ResyncPeriodic(rtcSet: bool, sleepBoot: bool, bootCount: nat, syncInterval: nat)
    requires syncInterval > 0
    ensures ResyncNeeded(rtcSet, sleepBoot, bootCount + syncInterval, syncInterval)
            == ResyncNeeded(rtcSet, sleepBoot, bootCount, syncInterval)
  {
    var q, r := bootCount / syncInterval, bootCount % syncInterval;
    DivModUnique(bootCount + syncInterval, syncInterval, q + 1, r);
  }

  /** Euclidean remainder is determined by any quotient/remainder decomposition. */
  lemma DivModUnique(x: int, m: int, q: int, r: int)
    requires m > 0 && 0 <= r < m && x == q * m + r
    ensures x % m == r
  {
    var d, s := x / m, x % m;
    assert x == d * m + s;
    if q > d {
      MulAtLeast(q - d, m);
    } else if q < d {
      MulAtLeast(d - q, m);
    }
  }

  lemma MulAtLeast(k: int, m: int)
    requires k >= 1 && m > 0
    ensures k * m >= m
  {
  }

  /** A set clock on a wake from sleep resyncs on boot 10 for intervals 5 and 10, not for 3. */
  lemma ResyncOnBootTen()
    ensures ResyncNeeded(true, true, 10, 5)
    ensures ResyncNeeded(true, true, 10, 10)
    ensures !ResyncNeeded(true, true, 10, 3)
  {
  }

  /**
   * ESP32Time numbers the weekday 0..6 from Sunday; the getter reports 1..7, either
   * from Monday (Sunday becomes 7) or from Sunday (every day shifts by one).
   */
  function RemapDayOfWeek(weekStartsOnMonday: bool, dow: int): (day: int)
    ensures 0 <= dow <= 6 ==> 1 <= day <= 7
  {
    if weekStartsOnMonday then (if dow == 0 then 7 else dow) else dow + 1
  }

  /** The inverse of RemapDayOfWeek: from the reported day 1..7 back to ESP32Time's 0..6. */
  function UnmapDayOfWeek(weekStartsOnMonday: bool, day: int): (dow: int)
    ensures 1 <= day <= 7 ==> 0 <= dow <= 6
  {
    if weekStartsOnMonday then (if day == 7 then 0 else day) else day - 1
  }

  /** RemapDayOfWeek is a bijection from 0..6 onto 1..7 in both week conventions. */
  lemma DayOfWeekBijection(weekStartsOnMonday: bool)
    ensures forall dow :: 0 <= dow <= 6 ==>
              UnmapDayOfWeek(weekStartsOnMonday, RemapDayOfWeek(weekStartsOnMonday, dow)) == dow
    ensures forall day :: 1 <= day <= 7 ==>
              RemapDayOfWeek(weekStartsOnMonday, UnmapDayOfWeek(weekStartsOnMonday, day)) == day
  {
  }

  /** The days of the week. */
  datatype Weekday = Sun | Mon | Tue | Wed | Thu | Fri | Sat

  /** ESP32Time's numbering: Sunday is 0, Saturday is 6. */
  function EspIndex(d: Weekday): int
  {
    match d
    case Sun => 0 case Mon => 1 case Tue => 2 case Wed => 3
    case Thu => 4 case Fri => 5 case Sat => 6
  }

  /** The week starting on Monday: Monday is 1, Sunday is 7. */
  function MondayFirst(d: Weekday): int
  {
    match d
    case Mon => 1 case Tue => 2 case Wed => 3 case Thu => 4
    case Fri => 5 case Sat => 6 case Sun => 7
  }

  /** The week starting on Sunday: Sunday is 1, Saturday is 7. */
  function SundayFirst(d: Weekday): int
  {
    match d
    case Sun => 1 case Mon => 2 case Tue => 3 case Wed => 4
    case Thu => 5 case Fri => 6 case Sat => 7
  }

  /** The remapping turns ESP32Time's number of every weekday into its number in either convention. */
  lemma DayOfWeekConventions(d: Weekday)
    ensures RemapDayOfWeek(true, EspIndex(d)) == MondayFirst(d)
    ensures RemapDayOfWeek(false, EspIndex(d)) == SundayFirst(d)
  {
  }

  /**
   * The calendar fields ESP32Time derives from the internal clock's local time. Their
   * ranges are not assumed: each getter states what it reports for an in-range field.
   */
  datatype Calendar = Calendar(dayOfWeek: int, hour: int, minute: int)

  /** What one run of the NTP retry loop did: requests made, back-off delays taken, epoch fetched. */
  datatype SyncRun = SyncRun(attempts: nat, delays: nat, fetched: Option<int>)

  /**
   * The retry loop of the synchronisation task, from the top of an iteration after
   * `retryCount` failed requests and `delays` back-offs; `outcomes[i]` is what the
   * NTP server answers to request i (None when forceUpdate fails).
   */
  function RetryLoop(outcomes: seq<Option<int>>, retryCount: nat, delays: nat): (run: SyncRun)
    requires |outcomes| >= MaxNtpRetries
    requires retryCount < MaxNtpRetries
    ensures retryCount < run.attempts <= MaxNtpRetries
    ensures run.delays == delays + (run.attempts - 1 - retryCount)
    ensures run.fetched.Some? ==> outcomes[run.attempts - 1] == run.fetched
    ensures forall i :: retryCount <= i < run.attempts - 1 ==> outcomes[i].None?
    ensures run.fetched.None? ==> run.attempts == MaxNtpRetries && outcomes[MaxNtpRetries - 1].None?
    decreases MaxNtpRetries - retryCount
  {
    if outcomes[retryCount].Some? then
      SyncRun(retryCount + 1, delays, outcomes[retryCount])
    else if retryCount + 1 >= MaxNtpRetries then
      SyncRun(retryCount + 1, delays, None)
    else
      RetryLoop(outcomes, retryCount + 1, delays + 1)
  }

  /** The whole retry loop of one synchronisation task. */
  function NtpRun(outcomes: seq<Option<int>>): (run: SyncRun)
    requires |outcomes| >= MaxNtpRetries
    ensures 1 <= run.attempts <= MaxNtpRetries && run.delays == run.attempts - 1
    ensures run.fetched.Some? ==> outcomes[run.attempts - 1] == run.fetched
    ensures forall i :: 0 <= i < run.attempts - 1 ==> outcomes[i].None?
    ensures run.fetched.None? ==> forall i :: 0 <= i < MaxNtpRetries ==> outcomes[i].None?
  {
    RetryLoop(outcomes, 0, 0)
  }

  /** k failed requests followed by a success (k < 5) make k + 1 requests and k back-offs. */
  lemma FailuresThenSuccess(outcomes: seq<Option<int>>, k: nat)
    requires |outcomes| >= MaxNtpRetries
    requires k < MaxNtpRetries
    requires forall i :: 0 <= i < k ==> outcomes[i].None?
    requires outcomes[k].Some?
    ensures NtpRun(outcomes) == SyncRun(k + 1, k, outcomes[k])
  {
  }

  /** Five failed requests make five requests and four back-offs; nothing is fetched. */
  lemma AllRequestsFail(outcomes: seq<Option<int>>)
    requires |outcomes| >= MaxNtpRetries
    requires forall i :: 0 <= i < MaxNtpRetries ==> outcomes[i].None?
    ensures NtpRun(outcomes) == SyncRun(MaxNtpRetries, MaxNtpRetries - 1, None)
  {
  }

  /** An epoch is fetched iff one of the five requests succeeds. */
  lemma FetchedIffSomeSuccess(outcomes: seq<Option<int>>)
    requires |outcomes| >= MaxNtpRetries
    ensures NtpRun(outcomes).fetched.Some?
            <==> exists i :: 0 <= i < MaxNtpRetries && outcomes[i].Some?
  {
  }

  /**
   * The process-wide time state of src/time.cpp: the display board's clock chip, the
   * ESP32 internal clock (`rtc`), the flags `rtcSet` and `ntpSynced`, and whether the
   * I2C bus to the chip is held. The write counters record how often each clock is set.
   */
  class TimeKeeper {
    const toLocal: int -> int

    var chipEpoch: int
    var chipSet: bool
    var chipWrites: nat

    var clockEpoch: int
    var offset: int
    var clockWrites: nat

    var i2cHeld: bool
    var rtcSet: bool
    var ntpSynced: bool

    constructor (toLocal: int -> int, chipEpoch: int, chipSet: bool, clockEpoch: int, offset: int)
      ensures this.toLocal == toLocal
      ensures this.chipEpoch == chipEpoch && this.chipSet == chipSet && chipWrites == 0
      ensures this.clockEpoch == clockEpoch && this.offset == offset && clockWrites == 0
      ensures !i2cHeld && !rtcSet && !ntpSynced
    {
      this.toLocal := toLocal;
      this.chipEpoch, this.chipSet, chipWrites := chipEpoch, chipSet, 0;
      this.clockEpoch, this.offset, clockWrites := clockEpoch, offset, 0;
      i2cHeld, rtcSet, ntpSynced := false, false, false;
    }

    /**
     * ESP32Time's `getLocalEpoch`: the epoch the internal clock was set to, in UTC, with
     * the stored timezone offset not applied (only the calendar fields apply it).
     */
    function LocalEpoch(): (local: int)
      reads this
      ensures local == clockEpoch
    {
      clockEpoch
    }

    /** Takes the I2C bus; the lock is not re-entrant. */
    method I2cStart()
      requires !i2cHeld
      modifies this`i2cHeld
      ensures i2cHeld
    {
      i2cHeld := true;
    }

    method I2cEnd()
      requires i2cHeld
      modifies this`i2cHeld
      ensures !i2cHeld
    {
      i2cHeld := false;
    }

    /** The chip's "set" flag, read over the bus. */
    method RtcIsSet() returns (isSet: bool)
      requires i2cHeld
      ensures isSet == chipSet
    {
      isSet := chipSet;
    }

    /** The chip's epoch, read over the bus. */
    method RtcGetEpoch() returns (epoch: int)
      requires i2cHeld
      ensures epoch == chipEpoch
    {
      epoch := chipEpoch;
    }

    /** Writes the chip's epoch; `setAfterWrite` is the "set" flag the chip reports afterwards. */
    method RtcSetEpoch(epoch: int, setAfterWrite: bool)
      requires i2cHeld
      modifies this`chipEpoch, this`chipSet, this`chipWrites
      ensures chipEpoch == epoch && chipSet == setAfterWrite
      ensures chipWrites == old(chipWrites) + 1
    {
      chipEpoch, chipSet := epoch, setAfterWrite;
      chipWrites := chipWrites + 1;
    }

    /** Sets the internal clock's UTC epoch. */
    method SetTime(epoch: int)
      modifies this`clockEpoch, this`clockWrites
      ensures clockEpoch == epoch && clockWrites == old(clockWrites) + 1
    {
      clockEpoch := epoch;
      clockWrites := clockWrites + 1;
    }

    function GetNtpSynced(): (synced: bool)
      reads this
      ensures synced == ntpSynced
    {
      ntpSynced
    }

    /**
     * Startup: refresh `rtcSet` from the chip, take the offset from the chip's epoch when
     * the chip is set, downgrade `rtcSet` when the internal clock (read before anything
     * changed) is before 2000, and start the synchronisation task when a resync is
     * needed and an NTP server is configured at build time.
     */
    method SetupTimeAndSyncTask(sleepBoot: bool, bootCount: nat, syncInterval: nat, ntpServerConfigured: bool)
      returns (syncTaskStarted: bool)
      requires !i2cHeld
      requires syncInterval > 0
      modifies this`rtcSet, this`offset, this`i2cHeld
      ensures !i2cHeld
      ensures rtcSet == (old(chipSet) && old(clockEpoch) >= Jan1st2000)
      ensures offset == if old(chipSet) then TzOffset(toLocal, old(chipEpoch)) else old(offset)
      ensures syncTaskStarted == (ntpServerConfigured && ResyncNeeded(rtcSet, sleepBoot, bootCount, syncInterval))
    {
      var localTime := LocalEpoch();
      I2cStart();
      rtcSet := RtcIsSet();
      if rtcSet {
        var rtcEpoch := RtcGetEpoch();
        offset := TzOffset(toLocal, rtcEpoch);
      }
      I2cEnd();

      if rtcSet && localTime < Jan1st2000 {
        rtcSet := false;
      }

      syncTaskStarted := false;
      if ntpServerConfigured {
        var resync := bootCount % syncInterval == 0;
        if !rtcSet || !sleepBoot || resync {
          syncTaskStarted := true;
        }
      }
    }

    /**
     * The synchronisation task: up to five NTP requests with a back-off after every
     * failure but the last; on the first success the fetched epoch is written to the chip
     * and to the internal clock, `ntpSynced` is raised, the offset is recomputed for the
     * fetched epoch and `rtcSet` is re-read from the chip. Then the task ends.
     */
    method NtpSync(outcomes: seq<Option<int>>, chipSetAfterWrite: bool) returns (attempts: nat, delays: nat)
      requires !i2cHeld
      requires |outcomes| >= MaxNtpRetries
      modifies this
      ensures attempts == NtpRun(outcomes).attempts && delays == NtpRun(outcomes).delays
      ensures NtpRun(outcomes).fetched.None? ==> unchanged(this)
      ensures NtpRun(outcomes).fetched.Some? ==>
                var epoch := NtpRun(outcomes).fetched.value;
                && chipEpoch == epoch && chipWrites == old(chipWrites) + 1
                && clockEpoch == epoch && clockWrites == old(clockWrites) + 1
                && offset == TzOffset(toLocal, epoch)
                && ntpSynced
                && chipSet == chipSetAfterWrite && rtcSet == chipSetAfterWrite
                && !i2cHeld
    {
      var retryCount: nat := 0;
      attempts, delays := 0, 0;
      while retryCount < MaxNtpRetries
        invariant retryCount < MaxNtpRetries
        invariant attempts == retryCount && delays == retryCount
        invariant NtpRun(outcomes) == RetryLoop(outcomes, retryCount, delays)
        invariant unchanged(this)
        decreases MaxNtpRetries - retryCount
      {
        attempts := attempts + 1;
        if outcomes[retryCount].None? {
          retryCount := retryCount + 1;
          if retryCount >= MaxNtpRetries {
            break;
          }
          delays := delays + 1;
          continue;
        }
        var ntpEpoch := outcomes[retryCount].value;

        I2cStart();
        var rtcEpoch := RtcGetEpoch();
        RtcSetEpoch(ntpEpoch, chipSetAfterWrite);
        SetTime(ntpEpoch);
        I2cEnd();

        ntpSynced := true;
        offset := TzOffset(toLocal, ntpEpoch);

        I2cStart();
        rtcSet := RtcIsSet();
        I2cEnd();
        break;
      }
    }

    /** The weekday 1..7, or -1 while the clock is not set. */
    function GetDayOfWeek(weekStartsOnMonday: bool, cal: Calendar): (day: int)
      reads this
      ensures !rtcSet ==> day == -1
      ensures rtcSet && 0 <= cal.dayOfWeek <= 6 ==>
                1 <= day <= 7 && UnmapDayOfWeek(weekStartsOnMonday, day) == cal.dayOfWeek
    {
      if !rtcSet then -1 else RemapDayOfWeek(weekStartsOnMonday, cal.dayOfWeek)
    }

    /** The hour 0..23, or -1 while the clock is not set. */
    function GetHour(cal: Calendar): (hour: int)
      reads this
      ensures !rtcSet ==> hour == -1
      ensures rtcSet ==> hour == cal.hour
      ensures 0 <= cal.hour <= 23 ==> (hour == -1 <==> !rtcSet)
    {
      if !rtcSet then -1 else cal.hour
    }

    /** The minute 0..59, or -1 while the clock is not set. */
    function GetMinute(cal: Calendar): (minute: int)
      reads this
      ensures !rtcSet ==> minute == -1
      ensures rtcSet ==> minute == cal.minute
      ensures 0 <= cal.minute <= 59 ==> (minute == -1 <==> !rtcSet)
    {
      if !rtcSet then -1 else cal.minute
    }
  }
}
