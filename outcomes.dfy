/** What a call into the planning functions can end in: a value, or the
    `IndexError` Python raises when a list is read past its end. No other
    exception can be raised by the modelled functions: every division is
    guarded by a positive divisor. */
module Outcomes {

  datatype Outcome<+T> = Returns(value: T) | IndexError

  datatype Option<+T> = None | Some(value: T)
}
