/** The host's interval timers (`setInterval` / `clearInterval`) as a value: the
    handles still live and the handle the next `setInterval` returns. Handle 0
    never names an interval; it stands for a field that was never assigned (or
    is null), on which `clearInterval` does nothing. */
module Timers {

  datatype Intervals = Intervals(live: set<nat>, next: nat)
  {
    /** Every live handle was handed out before, and handles are positive. */
    ghost predicate Valid() {
      next > 0 && forall h :: h in live ==> 0 < h < next
    }

    /** `setInterval(...)`: a fresh handle, now live. */
    function Start(): (r: (Intervals, nat))
      requires Valid()
      ensures r.0.Valid()
      ensures r.1 !in live && r.1 > 0
      ensures r.0.live == live + {r.1}
    {
      (Intervals(live + {next}, next + 1), next)
    }

    /** `clearInterval(h)`: stops `h` if it is live, and otherwise changes nothing. */
    function Stop(h: nat): (r: Intervals)
      requires Valid()
      ensures r.Valid()
      ensures r.live == live - {h}
      ensures h !in live ==> r == this
    {
      Intervals(live - {h}, next)
    }
  }

  /** Every live interval is the one a controller's handle field names: at most
      one interval runs. Handle 0 (unset) names none, so then none runs. */
  ghost predicate OnlyCurrent(t: Intervals, current: nat)
  {
    t.Valid() && current < t.next && t.live <= {current}
  }

  /** No interval has been created yet. */
  const NONE := Intervals({}, 1)
}
