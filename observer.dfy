/** The exit-signal observer (class `ExitButton`): a one-bit latch. */
module Observer {

  class ExitButton {
    var isExitPressed: bool

    constructor ()
      ensures !isExitPressed
    {
      isExitPressed := false;
    }

    /** Reports the latch and clears it. */
    method IsPressed() returns (pressed: bool)
      modifies this
      ensures pressed == old(isExitPressed)
      ensures !isExitPressed
    {
      if isExitPressed {
        isExitPressed := false;
        return true;
      }
      return isExitPressed;
    }

    /** The observer callback: sets the latch. */
    method Update()
      modifies this
      ensures isExitPressed
    {
      isExitPressed := true;
    }
  }

  /** Two updates before a poll still yield exactly one `true`. */
  method UpdateTwiceThenPoll(button: ExitButton) returns (first: bool, second: bool)
    modifies button
    ensures first && !second
    ensures !button.isExitPressed
  {
    button.Update();
    button.Update();
    first := button.IsPressed();
    second := button.IsPressed();
  }

  /** A fresh button is not pressed. */
  method PollFresh() returns (pressed: bool)
    ensures !pressed
  {
    var button := new ExitButton();
    pressed := button.IsPressed();
  }
}
