/** client/utils/glue.py: the shared interruptible sleep, which receives `running` by value. */
module Glue {

  /**
   * `interruptible_sleep(running, duration)`: `for _ in range(duration)`,
   * stopping when `running` is false, else sleeping one second per step.
   * Returns the number of one-second steps taken. Because `running` is a
   * parameter, a shutdown that happens during the call is never seen.
   */
  method InterruptibleSleep(running: bool, duration: int) returns (steps: nat)
    ensures steps == (if running && duration > 0 then duration else 0)
  {
    steps := 0;
    var i := 0;
    while i < duration
      invariant 0 <= i <= (if duration > 0 then duration else 0)
      invariant steps == i
      invariant !running ==> i == 0
    {
      if !running {
        break;
      }
      steps := steps + 1;
      i := i + 1;
    }
  }
}
