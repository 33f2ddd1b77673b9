/** The optional value used where the job holds `undefined`, or an exit code may be nil. */
module Options {

  datatype Option<+T> = None | Some(value: T)

}
