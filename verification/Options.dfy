/** The one failure-free wrapper the models share. */
module Options {

  datatype Option<+T> = None | Some(value: T)
}
