/** A value that may be absent: JavaScript's `undefined`/`null` where the page
    distinguishes "no value" from a value. */
module Optional {

  datatype Option<+T> = None | Some(value: T)
}
