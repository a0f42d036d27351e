/**
 * The training video (src/components/training/VideoModule.tsx): the
 * confirmation checkbox opens only after the video has ended, and Continue
 * completes the step only when both have happened.
 */
module Video {

  class VideoModule {
    var watched: bool
    var checked: bool

    /** The checkbox stays disabled until the video ends, so it is never ticked before that. */
    ghost predicate Valid()
      reads this
    {
      checked ==> watched
    }

    constructor ()
      ensures Valid()
      ensures !watched && !checked
    {
      watched := false;
      checked := false;
    }

    /** The video's `ended` event. */
    method HandleEnded()
      requires Valid()
      modifies this
      ensures Valid()
      ensures watched && checked == old(checked)
    {
      watched := true;
    }

    /** The checkbox, which can be toggled only once it is enabled. */
    method SetChecked(value: bool)
      requires Valid() && CheckboxEnabled()
      modifies this
      ensures Valid()
      ensures checked == value && watched == old(watched)
    {
      checked := value;
    }

    predicate CheckboxEnabled()
      reads this
      ensures Valid() && checked ==> CheckboxEnabled()
    {
      watched
    }

    predicate ContinueEnabled()
      reads this
      ensures ContinueEnabled() ==> CheckboxEnabled()
    {
      watched && checked
    }

    /**
     * Continue completes the step only after the video was watched and
     * confirmed, otherwise nothing happens. Since the box cannot be ticked
     * earlier, the tick alone decides.
     */
    method HandleContinue() returns (complete: bool)
      requires Valid()
      ensures complete <==> ContinueEnabled()
      ensures complete <==> checked
    {
      complete := false;
      if watched && checked {
        complete := true;
      }
    }
  }
}
