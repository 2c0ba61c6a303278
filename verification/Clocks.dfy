// The clocks that refuse to run backwards.
module Clocks {
  import opened Prelude

  datatype ClockError = Backwards

  class ReplayClock {
    var now: int

    constructor (start: int)
      ensures now == start
    {
      now := start;
    }

    // Advance to the next event's time; a time before the current one is refused and changes nothing.
    method SetEventTime(t: int) returns (r: Result<(), ClockError>)
      modifies this
      ensures r.Success? <==> old(now) <= t
      ensures now == if old(now) <= t then t else old(now)
    {
      if t < now {
        return Failure(Backwards);
      }
      now := t;
      r := Success(());
    }
  }
}
