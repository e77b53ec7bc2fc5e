/** The polling guard shared by the roster views' `autoupdate` and the
    clock's `clockTick`: after clearing the pending timer they read
    `Number(updateInterval)` and return without scheduling when it is 0, NaN
    or below 10 ms. Their `this.destroyed` test reads the name of a lifecycle
    hook, which Vue does not put on the instance, so it is always undefined
    and never stops the poll. */
module Scheduling {
  import opened JsBuiltins

  const MinInterval := 10

  /** The delay of the timer the guard lets through, if any. */
  function PollDelay(updateInterval: Value): (r: Option<int>)
    ensures r.Some? <==> ToNumber(updateInterval).Some? && ToNumber(updateInterval).value >= MinInterval
    ensures r.Some? ==> r == ToNumber(updateInterval)
  {
    var time := ToNumber(updateInterval);
    if time.None? || time.value == 0 || time.value < MinInterval then None else time
  }

  /** A zero, negative, too small or non-numeric interval never schedules. */
  lemma PollDelayRejects()
    ensures PollDelay(Num(0)).None? && PollDelay(Num(9)).None? && PollDelay(Undefined).None?
    ensures PollDelay(Null).None? && PollDelay(Bool(true)).None?
    ensures PollDelay(Num(10)) == Some(10)
  {
  }
}
