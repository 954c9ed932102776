/** A value that may be missing: pandas' NaN / None in an object or float column. */
module Optional {

  datatype Option<T> = None | Some(value: T)
}
