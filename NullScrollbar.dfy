/** The scrollbar installed on an axis that does not scroll: it accepts the
    viewport's reports and ignores them, and it has no handler that could
    fire its position-rate trigger. */
module NullScrollbars {
  import opened ScrollMath

  class NullScrollbar {
    /** Whether `onChangeBarPositionRate` still refers to a trigger. */
    var hasTrigger: bool

    constructor ()
      ensures hasTrigger
    {
      hasTrigger := true;
    }

    /** Any report, with any of its arguments absent, is accepted and
        changes nothing. */
    method SetBarProperties(posRate: Option<real>, contentLength: Option<int>, viewLength: Option<int>)
      ensures unchanged(this)
    {
    }

    /** Teardown destroys the trigger and drops the reference to it. */
    method Destroy()
      modifies this
      ensures !hasTrigger
    {
      hasTrigger := false;
    }
  }
}
