/** The optional value used for "a timer may be pending", "a watch may be armed"
    and "a duration may be given". */
module Options {

  datatype Option<+T> = None | Some(value: T)
}
