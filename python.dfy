/**
  The small part of Python's runtime behaviour the recorder node relies on:
  optional values, the exceptions its code can raise, and the truthiness of
  the loosely typed values it stores in its detection flags.
*/
module Python {

  datatype Option<+T> = None | Some(value: T)

  /** The outcome of a Python computation: a value, or the exception it raised. */
  datatype Result<+T> = Ok(value: T) | Err(error: PyError)

  /**
    The exceptions the node's own code can raise:
    - ValueError: unpacking a list of the wrong length, `float()` of a
      non-numeric string, `min()`/`max()` of an empty list;
    - IndexError: indexing past the end of a list;
    - AttributeError: calling a string method on `None` (an XML element
      without text).
  */
  datatype PyError = ValueError | IndexError | AttributeError

  /** A dynamically typed Python value, as far as the node's flags use them. */
  datatype PyValue = PyBool(b: bool) | PyInt(i: int) | PyStr(s: string)

  /**
    The numeric builtins the node calls, whose floating-point behaviour is
    not modelled: `float(s)` (`None` where it raises ValueError),
    `math.radians`, `math.cos` and `math.sin`.
  */
  datatype Builtins = Builtins(
    float: string -> Option<real>,
    radians: real -> real,
    cos: real -> real,
    sin: real -> real)

  /** Python truthiness: `False`, `0` and `''` are false, everything else is true. */
  predicate Truthy(v: PyValue)
  {
    match v
    case PyBool(b) => b
    case PyInt(i) => i != 0
    case PyStr(s) => |s| > 0
  }
}
