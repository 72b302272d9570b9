/** The home screen's active-visit card (frontend/src/screens/HomeScreen.tsx):
    which schedule it shows, the elapsed-time counter kept by its timer
    effect, and the `HH:MM:SS` text of that counter. */
module HomeScreen {
  import opened Wrappers
  import opened AppTypes
  import Script

  /** `schedules.find(s => s.status === 'in_progress')`. */
  function CurrentSchedule(schedules: seq<AppSchedule>): (r: Option<AppSchedule>)
    ensures r.None? <==> forall i | 0 <= i < |schedules| :: schedules[i].status != "in_progress"
    ensures r.Some? ==> exists i | 0 <= i < |schedules| ::
      schedules[i] == r.value && r.value.status == "in_progress" &&
      forall j | 0 <= j < i :: schedules[j].status != "in_progress"
  {
    if schedules == [] then None
    else if schedules[0].status == "in_progress" then Some(schedules[0])
    else
      var r := CurrentSchedule(schedules[1..]);
      assert forall i | 1 <= i < |schedules| :: schedules[i] == schedules[1..][i - 1];
      if r.Some? then
        var i :| 0 <= i < |schedules[1..]| && schedules[1..][i] == r.value &&
          forall j | 0 <= j < i :: schedules[1..][j].status != "in_progress";
        assert schedules[i + 1] == r.value;
        r
      else r
  }

  /** The counter text: `HH:MM:SS`, no spaces. */
  function FormatElapsedTime(seconds: int): string {
    Script.FormatElapsed(seconds, ":")
  }

  /** The counter text of a non-negative count reads back as that count. */
  lemma FormatElapsedTimeReadsBack(seconds: int)
    requires seconds >= 0
    ensures Script.ParseElapsed(FormatElapsedTime(seconds), ":") == Some(seconds)
    ensures |FormatElapsedTime(seconds)| >= 8
  {
    Script.FormatElapsedRoundTrip(seconds, ":");
    Script.PaddedWidth(Script.Hours(seconds));
    Script.PaddedWidth(Script.Minutes(seconds));
    Script.PaddedWidth(Script.Seconds(seconds));
    Script.PartsDecompose(seconds);
  }

  /** A schedule whose counter the effect runs. */
  predicate Active(s: Option<AppSchedule>) {
    s.Some? && s.value.status == "in_progress"
  }

  /** The timer effect's state: the schedule it was last run for, the
      `elapsedTime` state, and whether an interval is set. */
  class ElapsedTimer {
    var current: Option<AppSchedule>
    var elapsed: int
    var running: bool

    /** An interval runs exactly for an in-progress schedule, and the
        counter is zero whenever none does. */
    predicate Valid()
      reads this
    {
      (running <==> Active(current)) && (!running ==> elapsed == 0)
    }

    /** `useState(0)` before any schedule has been seen. */
    constructor()
      ensures Valid() && current.None? && elapsed == 0 && !running
    {
      current := None;
      elapsed := 0;
      running := false;
    }

    /** A render with the schedule list `schedules` at time `nowMs`: the
        effect runs again only when the selected schedule changed, and then
        either starts counting from its start time or resets to zero. */
    method Render(schedules: seq<AppSchedule>, nowMs: int)
      requires Valid()
      modifies this
      ensures Valid()
      ensures current == CurrentSchedule(schedules)
      ensures CurrentSchedule(schedules) == old(current) ==>
        elapsed == old(elapsed) && running == old(running)
      ensures CurrentSchedule(schedules) != old(current) && Active(current) ==>
        running && elapsed == Script.ElapsedSeconds(current.value.startMs, nowMs)
      ensures CurrentSchedule(schedules) != old(current) && !Active(current) ==>
        !running && elapsed == 0
    {
      var next := CurrentSchedule(schedules);
      if next == current {
        return;
      }
      current := next;
      if Active(next) {
        elapsed := Script.ElapsedSeconds(next.value.startMs, nowMs);
        running := true;
      } else {
        elapsed := 0;
        running := false;
      }
    }

    /** One tick of the one-second interval: the counter is recomputed from
        the start time; without an interval nothing happens. */
    method Tick(nowMs: int)
      requires Valid()
      modifies this`elapsed
      ensures Valid()
      ensures running ==> elapsed == Script.ElapsedSeconds(current.value.startMs, nowMs)
      ensures !running ==> elapsed == old(elapsed)
    {
      if running {
        elapsed := Script.ElapsedSeconds(current.value.startMs, nowMs);
      }
    }
  }

  /** The card shows the first in-progress schedule, so the timer runs
      exactly when some schedule is in progress. */
  lemma ActiveIffSomeInProgress(schedules: seq<AppSchedule>)
    ensures Active(CurrentSchedule(schedules)) <==>
      exists i | 0 <= i < |schedules| :: schedules[i].status == "in_progress"
  {
  }
}
