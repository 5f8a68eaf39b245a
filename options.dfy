/** The optional value returned by `choose` and held in the not-yet-generated
    fields of a language. */
module Options {

  datatype Option<+T> = None | Some(value: T)
}
