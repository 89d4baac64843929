/**
 * The Python objects the binding hands back, as a value tree, and the two
 * mutable containers it fills step by step (`PyList`, `PyDict`).
 */
module Python {
  import opened Values
  import Entries

  /** A Python object graph that is a tree; a dict maps `str` keys in insertion order. */
  datatype PyObject =
    | PyNone
    | PyBool(b: bool)
    | PyInt(i: int)
    | PyFloat(f: F64)
    | PyStr(s: string)
    | PyList(items: seq<PyObject>)
    | PyDict(entries: seq<(string, PyObject)>)

  /** The Python exceptions the binding raises, with their messages. */
  datatype PyErr = ValueError(msg: string) | IOError(msg: string)

  /** A fresh, growing Python `list`. */
  class ListBuilder {
    var items: seq<PyObject>

    /** `PyList::empty`. */
    constructor ()
      ensures items == []
    {
      items := [];
    }

    /** `list.append(x)`. */
    method Append(x: PyObject)
      modifies this
      ensures items == old(items) + [x]
    {
      items := items + [x];
    }

    /** The list as a Python object (`into()`). */
    function Object(): PyObject
      reads this
    {
      PyList(items)
    }
  }

  /** A fresh, growing Python `dict`. */
  class DictBuilder {
    var entries: seq<(string, PyObject)>

    /** `PyDict::new`. */
    constructor ()
      ensures entries == []
    {
      entries := [];
    }

    /** `dict[key] = x`. */
    method SetItem(key: string, x: PyObject)
      modifies this
      ensures entries == Entries.SetItem(old(entries), key, x)
    {
      entries := Entries.SetItem(entries, key, x);
    }

    /** The dict as a Python object (`into()`). */
    function Object(): PyObject
      reads this
    {
      PyDict(entries)
    }
  }
}
