/** The optional value returned by the store's lookups and carried by request fields. */
module Optional {

  datatype Option<+T> = None | Some(value: T)

}
