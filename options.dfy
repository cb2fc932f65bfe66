/** An optional value, used where the modelled code either yields something or nothing. */
module Options {

  datatype Option<+T> = None | Some(value: T)

}
