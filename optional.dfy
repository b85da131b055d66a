/** The Option type shared by the generator and the template scope resolver:
    a Java reference that may be null becomes an Option. */
module Optional {

  datatype Option<+T> = None | Some(value: T)

}
