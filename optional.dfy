/** The optional value used for every `Option<T>` field of the documents. */
module Optional {

  datatype Option<+T> = None | Some(value: T)
}
