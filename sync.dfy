/** The completion counter the orchestrator waits on (Go's sync.WaitGroup). */
module Sync {

  class WaitGroup {
    var counter: int

    constructor ()
      ensures counter == 0
    {
      counter := 0;
    }

    /** Add panics in Go when the counter would become negative. */
    method Add(delta: int)
      requires counter + delta >= 0
      modifies this
      ensures counter == old(counter) + delta
    {
      counter := counter + delta;
    }

    method Done()
      requires counter >= 1
      modifies this
      ensures counter == old(counter) - 1
    {
      counter := counter - 1;
    }

    /** In a sequential run nothing else can decrement the counter: Wait returns only if it is already zero. */
    method Wait()
      requires counter == 0
      ensures counter == 0
    {
    }
  }
}
