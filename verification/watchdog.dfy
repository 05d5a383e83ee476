/**
 * The watchdog manager: a process-wide supervisor with two flags, `initialized` and
 * `enabled`, over ESP-IDF's task watchdog timer. Every call it makes into the timer is
 * recorded in `timerCalls`; the timer's own results are inputs to the operations.
 */
module Watchdog {

  /** The build-time default timeout in seconds, `WDT_TIMEOUT_SEC`, which callers of `Init` pass explicitly. */
  const WdtTimeoutSec: nat := 120

  /** A call into ESP-IDF's task watchdog timer. */
  datatype TimerCall =
    | TimerInit(timeoutSec: nat, panicOnTimeout: bool)
    | TimerAdd
    | TimerDelete
    | TimerReset
    | TimerDeinit

  class WatchdogManager {
    var initialized: bool
    var enabled: bool
    var timerCalls: seq<TimerCall>

    /** The watchdog is never enabled without being initialized. */
    ghost predicate Valid()
      reads this
    {
      enabled ==> initialized
    }

    constructor ()
      ensures Valid()
      ensures !initialized && !enabled && timerCalls == []
    {
      initialized, enabled, timerCalls := false, false, [];
    }

    /**
     * Configures the timer unless already initialized; `timerOk` is whether the timer
     * accepted the configuration. Returns whether the watchdog is now initialized.
     */
    method Init(timeoutSec: nat, panicOnTimeout: bool, timerOk: bool) returns (ok: bool)
      requires Valid()
      modifies this
      ensures Valid()
      ensures old(initialized) ==> ok && unchanged(this)
      ensures !old(initialized) ==>
                && timerCalls == old(timerCalls) + [TimerInit(timeoutSec, panicOnTimeout)]
                && ok == timerOk
                && (timerOk ==> initialized && enabled)
                && (!timerOk ==> initialized == old(initialized) && enabled == old(enabled))
    {
      if initialized {
        return true;
      }
      timerCalls := timerCalls + [TimerInit(timeoutSec, panicOnTimeout)];
      if timerOk {
        initialized := true;
        enabled := true;
        return true;
      } else {
        return false;
      }
    }

    /** Subscribes the calling task; fails without touching the timer when not initialized. */
    method Subscribe(timerOk: bool) returns (ok: bool)
      requires Valid()
      modifies this`timerCalls
      ensures Valid()
      ensures ok == (initialized && timerOk)
      ensures timerCalls == if initialized then old(timerCalls) + [TimerAdd] else old(timerCalls)
    {
      if !initialized {
        return false;
      }
      timerCalls := timerCalls + [TimerAdd];
      ok := timerOk;
    }

    /** Unsubscribes the calling task; fails without touching the timer when not initialized. */
    method Unsubscribe(timerOk: bool) returns (ok: bool)
      requires Valid()
      modifies this`timerCalls
      ensures Valid()
      ensures ok == (initialized && timerOk)
      ensures timerCalls == if initialized then old(timerCalls) + [TimerDelete] else old(timerCalls)
    {
      if !initialized {
        return false;
      }
      timerCalls := timerCalls + [TimerDelete];
      ok := timerOk;
    }

    /** Feeds the timer when the watchdog is initialized and enabled; otherwise does nothing. */
    method Reset()
      requires Valid()
      modifies this`timerCalls
      ensures Valid()
      ensures timerCalls == if initialized && enabled then old(timerCalls) + [TimerReset] else old(timerCalls)
    {
      if initialized && enabled {
        timerCalls := timerCalls + [TimerReset];
      }
    }

    /** Suspends enforcement without unsubscribing anyone; a no-op when not initialized. */
    method Disable()
      requires Valid()
      modifies this`enabled
      ensures Valid()
      ensures enabled == if initialized then false else old(enabled)
    {
      if initialized {
        enabled := false;
      }
    }

    /** Resumes enforcement; a no-op when not initialized. */
    method Enable()
      requires Valid()
      modifies this`enabled
      ensures Valid()
      ensures enabled == if initialized then true else old(enabled)
    {
      if initialized {
        enabled := true;
      }
    }

    function IsInitialized(): (isInitialized: bool)
      reads this
      ensures isInitialized == initialized
    {
      initialized
    }

    function IsEnabled(): (isEnabled: bool)
      reads this
      ensures isEnabled == enabled
      ensures Valid() && isEnabled ==> IsInitialized()
    {
      enabled
    }

    /** Tears the timer down and clears both flags; a no-op when not initialized. */
    method Deinit()
      requires Valid()
      modifies this
      ensures Valid()
      ensures old(initialized) ==>
                !initialized && !enabled && timerCalls == old(timerCalls) + [TimerDeinit]
      ensures !old(initialized) ==> unchanged(this)
    {
      if initialized {
        timerCalls := timerCalls + [TimerDeinit];
        initialized := false;
        enabled := false;
      }
    }
  }

  /**
   * The documented usage: initialize with the default timeout, subscribe a task, feed
   * the timer, and suspend enforcement around a long operation such as an OTA update.
   * When the timer accepts every call, each step reaches the timer as expected.
   */
  method UsageExample(wdt: WatchdogManager)
    requires wdt.Valid() && !wdt.initialized
    modifies wdt
    ensures wdt.Valid() && wdt.initialized && wdt.enabled
    ensures wdt.timerCalls == old(wdt.timerCalls) + [TimerInit(WdtTimeoutSec, true), TimerAdd, TimerReset, TimerReset]
  {
    var ok := wdt.Init(WdtTimeoutSec, true, true);
    assert ok;
    ok := wdt.Subscribe(true);
    assert ok;
    wdt.Reset();
    wdt.Disable();
    wdt.Reset();
    wdt.Enable();
    wdt.Reset();
  }
}
