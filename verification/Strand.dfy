/** The shared state of `Strand` and its two locked regions. */
module Strands {
  import opened Options

  datatype StrandState = StrandState(queue: seq<nat>, running: bool)

  /** `addTask`: queue the job; the caller must schedule iff the flag was clear. */
  function AddRegion(s: StrandState, job: nat): (StrandState, bool) {
    (StrandState(s.queue + [job], true), !s.running)
  }

  /** `scheduleNext`: clear the flag when nothing is queued, else pop the next job. */
  function ScheduleRegion(s: StrandState): (StrandState, Option<nat>) {
    if s.queue == [] then (StrandState([], false), None)
    else (StrandState(s.queue[1..], s.running), Some(s.queue[0]))
  }

  class Strand {
    var queue: seq<nat>
    var running: bool

    function View(): StrandState
      reads this
    {
      StrandState(queue, running)
    }

    constructor ()
      ensures View() == StrandState([], false)
    {
      queue, running := [], false;
    }

    method Add(job: nat) returns (needSchedule: bool)
      modifies this
      ensures (View(), needSchedule) == AddRegion(old(View()), job)
    {
      queue := queue + [job];
      needSchedule := !running;
      running := true;
    }

    method Next() returns (next: Option<nat>)
      modifies this
      ensures (View(), next) == ScheduleRegion(old(View()))
    {
      if |queue| == 0 {
        running := false;
        next := None;
      } else {
        next := Some(queue[0]);
        queue := queue[1..];
      }
    }
  }
}
