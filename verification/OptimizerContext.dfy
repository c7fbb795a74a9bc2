/** What the optimizer passes report to the loop that runs them. */
module OptimizerContext {

  class Context {
    var changes: bool

    constructor ()
      ensures !changes
    {
      changes := false;
    }

    /** A new round of passes has changed nothing yet. */
    method NextPass()
      modifies this
      ensures !changes
    {
      changes := false;
    }

    method SetChanges()
      modifies this
      ensures changes
    {
      changes := true;
    }
  }
}
