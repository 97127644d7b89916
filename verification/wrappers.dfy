/** An optional value. It stands for the null a DOM lookup or `getAttribute` can give,
    and for a call the route never made. */
module Wrappers {

  datatype Option<+T> = None | Some(value: T)
}
