/** The Python values a caller may pass as a run's `params`, as far as the run tells them apart. */
module PyObjects {

  /**
   * A Python object. The run only asks whether a value is exactly a `list`,
   * whether it is a `tuple`, and what its first two items are; `Int`, `Str`
   * and `Dict` stand for the other values callers pass.
   */
  datatype PyObj =
    | List(items: seq<PyObj>)
    | Tuple(items: seq<PyObj>)
    | Int(i: int)
    | Str(text: string)
    | Dict(entries: seq<(PyObj, PyObj)>)
}
