/** An optional value: used for the scroll request a handler may or may not
    issue, and for the overlay opacity of a slide that may have no overlay. */
module Options {

  datatype Option<+T> = None | Some(value: T)
}
