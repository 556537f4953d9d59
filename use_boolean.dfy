/** `useBoolean`: one boolean state value and its three setters. */
module UseBoolean {
  import opened Wrappers

  class BooleanState {
    var value: bool

    /** The initial value defaults to false. */
    constructor (initialValue: Option<bool>)
      ensures value == initialValue.GetOr(false)
    {
      value := initialValue.GetOr(false);
    }

    method SetTrue()
      modifies this
      ensures value
    {
      value := true;
    }

    method SetFalse()
      modifies this
      ensures !value
    {
      value := false;
    }

    method Toggle()
      modifies this
      ensures value == !old(value)
    {
      value := !value;
    }
  }

  /** Toggling twice restores the value. */
  method ToggleTwice(b: BooleanState)
    modifies b
    ensures b.value == old(b.value)
  {
    b.Toggle();
    b.Toggle();
  }

  /** `setTrue` and `setFalse` ignore the prior value: after either, toggling gives the other. */
  method SetThenToggle(b: BooleanState, to: bool)
    modifies b
    ensures b.value == !to
  {
    if to {
      b.SetTrue();
    } else {
      b.SetFalse();
    }
    b.Toggle();
  }
}
