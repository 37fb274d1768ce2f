/**
  The frame counter (`FpsCounter`). Time is a clock reading in whole units
  passed in by the caller; the refresh period is the `1 / refresh_rate`
  duration in the same units. The floating-point fps value is not computed:
  each refresh records the frames counted and the time they took, from
  which `fps` is derived.
 */
module FpsCounter {

  /** One call of the report callback: which callback, frames counted, time elapsed. */
  datatype Report<Cb> = Report(callback: Cb, frames: nat, elapsed: nat)

  /** `Instant` subtraction saturates at zero. */
  function Elapsed(now: nat, since: nat): (d: nat)
    ensures now >= since ==> d + since == now
    ensures now < since ==> d == 0
  {
    if now >= since then now - since else 0
  }

  class FpsCounter<Cb> {
    var fpsUpdated: bool
    var frames: nat
    var lastTime: nat
    const refreshPeriod: nat
    var reportFpsCallback: Cb
    /** Every call made to the report callback so far, oldest first. */
    var reports: seq<Report<Cb>>

    /** Right after a refresh no frame is pending; every report counted a frame. */
    ghost predicate Valid()
      reads this
    {
      && (fpsUpdated ==> frames == 0)
      && forall i :: 0 <= i < |reports| ==> reports[i].frames >= 1
    }

    /** `FpsCounter::new`: no frames, not refreshed, a do-nothing callback. */
    constructor (refreshPeriod: nat, now: nat, noReport: Cb)
      ensures Valid()
      ensures frames == 0 && !fpsUpdated && lastTime == now && reports == []
      ensures this.refreshPeriod == refreshPeriod && reportFpsCallback == noReport
    {
      this.refreshPeriod := refreshPeriod;
      fpsUpdated := false;
      frames := 0;
      lastTime := now;
      reportFpsCallback := noReport;
      reports := [];
    }

    /** `set_report_fps_callback`: replaces the callback and nothing else. */
    method SetReportFpsCallback(callback: Cb)
      requires Valid()
      modifies this
      ensures Valid()
      ensures reportFpsCallback == callback
      ensures frames == old(frames) && fpsUpdated == old(fpsUpdated) && lastTime == old(lastTime)
      ensures reports == old(reports)
    {
      reportFpsCallback := callback;
    }

    /**
      `tick(now)`: counts a frame; before a full refresh period has passed
      that is all, and the refreshed flag is down. Once it has, the callback
      is called once with the frames counted, the count restarts, the period
      restarts at `now` and the flag goes up.
     */
    method Tick(now: nat)
      requires Valid()
      modifies this
      ensures Valid()
      ensures reportFpsCallback == old(reportFpsCallback)
      ensures Elapsed(now, old(lastTime)) < refreshPeriod ==>
                && frames == old(frames) + 1 && !fpsUpdated
                && lastTime == old(lastTime) && reports == old(reports)
      ensures Elapsed(now, old(lastTime)) >= refreshPeriod ==>
                && frames == 0 && fpsUpdated && lastTime == now
                && reports == old(reports) + [Report(reportFpsCallback, old(frames) + 1, Elapsed(now, old(lastTime)))]
    {
      frames := frames + 1;
      var frameDuration := Elapsed(now, lastTime);
      fpsUpdated := false;
      if frameDuration >= refreshPeriod {
        reports := reports + [Report(reportFpsCallback, frames, frameDuration)];
        frames := 0;
        lastTime := now;
        fpsUpdated := true;
      }
    }

    /** `is_refreshed`: whether the most recent tick refreshed. */
    function IsRefreshed(): (refreshed: bool)
      reads this
      ensures refreshed <==> fpsUpdated
    {
      fpsUpdated
    }
  }
}
