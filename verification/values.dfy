/** Values that cross the boundary between the worker and its environment. */
module Values {

  /** The result of a key-value lookup: `None` stands for the store's `null`. */
  datatype Option<+T> = None | Some(value: T)

  /** A JavaScript value as the strict comparison `!==` on the request's
      `password` field sees it.  `Undefined` stands for a missing field and for
      every JSON value that is neither a string nor `null` (a number, a boolean,
      an object): none of those is ever strictly equal to a string or to `null`. */
  datatype JsValue = Undefined | Null | Str(s: string)

  /** The JavaScript value of a store read: a stored string, or `null`. */
  function FromStored(v: Option<string>): JsValue
  {
    match v
    case None => Null
    case Some(s) => Str(s)
  }
}
