/** A value that may be absent: stands for pandas' NaN in the RSI series. */
module Optional {

  datatype Option<+T> = None | Some(value: T)

}
