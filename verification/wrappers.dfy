/** The optional value used wherever the dashboard's pandas columns may hold
    NaN (an indicator before its window fills) or a float division may leave
    the reals (a zero denominator). */
module Wrappers {

  datatype Option<+T> = None | Some(value: T)
}
