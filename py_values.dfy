/** Python-side values shared by the cluster and embed modules: the few shapes a
    constructor argument can take as far as `isinstance(v, int)` and an integer
    comparison can tell them apart, Python's `None`, and attribute presence. */
module PyValues {

  /** A Python value. `bool` is a subclass of `int` in Python (`True == 1`,
      `False == 0`), so it is kept apart from other non-int values; every other
      type (str, float, numpy integers, ...) is `PyOther`. */
  datatype PyValue = PyNone | PyInt(i: int) | PyBool(b: bool) | PyOther(typeName: string)

  datatype Option<+T> = None | Some(value: T)

  /** Whether an attribute has been assigned on an object (Python raises
      AttributeError on reading an unset one). */
  datatype Attr<+T> = Unset | Set(value: T)

  /** `isinstance(v, int)`, and the value the int stands for. */
  function AsInt(v: PyValue): (r: Option<int>)
    ensures r.Some? <==> v.PyInt? || v.PyBool?
    ensures v.PyBool? ==> r == Some(if v.b then 1 else 0)
  {
    match v
    case PyInt(i) => Some(i)
    case PyBool(b) => Some(if b then 1 else 0)
    case _ => None
  }
}
