# maxminddb-pyo3 in Dafny

A model of the Python binding around the `maxminddb` decoder. The binding
exposes a `Reader` that is opened on a MaxMind database file. Its `get(ip)`
parses an address, asks the decoder for the record, and returns the record
as Python objects. Two pieces of logic belong to the binding itself, and
both are modelled and proved here:

- **The value bridge (`convert_to_py`).** The decoder returns a serde_json
  `Value` tree, modelled as `Values.Value`. The bridge turns it into a
  Python object tree, modelled as `Python.PyObject`. A number is abstract:
  it is seen only through its optional `i64` view and its optional `f64`
  view, and the float bits are opaque. `Bridge.Convert` is the conversion,
  written as a function. `Binding.Reader.ConvertToPy` is the source's own
  algorithm. It fills a fresh list with `append` and a fresh dict with
  `set_item`, one item at a time (`Python.ListBuilder`,
  `Python.DictBuilder`), and it is proved equal to `Convert`.
  `Bridge.Mirrors` states the conversion rules again, variant by variant,
  as a relation. On trees whose objects have distinct keys, the conversion
  is proved to be exactly the object those rules describe. Python's dict
  assignment is modelled as it behaves: an existing key keeps its place
  and gets the new value, and a new key goes at the end
  (`Entries.SetItem`). So the conversion is total even on a tree with a
  repeated key.
- **Outcome classification (`get`, `open_database`).** The IP-address
  parser, the decoder's lookup and the decoder's open routine are oracles
  passed in as functions. The same goes for the text the decoder's error
  renders to. The model states which Python result or exception each
  combination of their answers produces.

The binding reports failures as follows:
- An unparsable address raises `ValueError("Invalid IP address")`.
- A lookup failure other than "address not found" raises
  `ValueError("Lookup error")` and does not carry the underlying cause.
- A failure to open raises `IOError` with the message
  "Failed to open database: " followed by the decoder's description of
  the failure.

An address that is not in the database gives Python `None`. A record whose
value is `null` also gives `None` (`Bridge.ConvertLeaves`), so a Python
caller cannot tell the two apart.

## Model

| member | source | states |
|---|---|---|
| `Binding.Reader.Get` | src/lib.rs:21-34 | An address the parser rejects gives `ValueError("Invalid IP address")` whatever the decoder holds. A decoder `AddressNotFoundError` gives `None`, not an error. Every other decoder error gives `ValueError("Lookup error")`. A record found gives exactly `Convert` of the decoded value. The result is an error iff parsing failed or the lookup failed for a reason other than absence, and it is never an `IOError`. The method modifies nothing, so the reader is unchanged. |
| `Binding.Reader.ConvertToPy` | src/lib.rs:39-68 | The object built by filling fresh lists and dicts item by item equals `Bridge.Convert` of the value. |
| `Binding.OpenDatabase` | src/lib.rs:73-78 | It fails exactly when the decoder's open fails, and then with `IOError("Failed to open database: " + description of the cause)`. Otherwise it returns a reader holding the opened decoder. |
| `Binding.Reader.constructor` | src/lib.rs:77 | The reader holds the decoder it was built from. That field is `const` and no method changes it. |
| `Bridge.ConvertLeaves` | src/lib.rs:41-42 | `null` becomes `None`, a boolean becomes the same boolean, and a string becomes the same text (line 52). |
| `Bridge.ConvertPrefersInteger` | src/lib.rs:43-51 | A number with an `i64` view becomes an `int` of exactly that value, even if it also has a float view. Otherwise a number with an `f64` view becomes that `float`. Otherwise it becomes `None`. |
| `Bridge.ConvertArray` | src/lib.rs:53-58 | An array becomes a list of the same length whose i-th element is the conversion of the i-th element. |
| `Bridge.ConvertObject` | src/lib.rs:60-66 | An object with distinct keys becomes a dict with exactly those keys, in the map's iteration order, each mapped to the conversion of its value. |
| `Bridge.ConvertObjectKeys` | src/lib.rs:60-66 | For any object, the dict holds each of the object's keys once and no other key. |
| `Bridge.ConvertMirrors` | src/lib.rs:39-68 | On a well-formed tree, the conversion obeys every per-variant rule all the way down. Shape, element order, keys, scalar values and the int/float distinction are all kept. |
| `Bridge.MirrorsOnlyConvert` | src/lib.rs:39-68 | Any Python object that obeys the per-variant rules for a well-formed tree equals its conversion. |
| `Bridge.ConvertCharacterised` | src/lib.rs:39-68 | On a well-formed tree, a Python object obeys the rules iff it is the conversion. |
| `Entries.SetItemNewKey` | src/lib.rs:63 | Assigning a key the dict does not hold appends the entry after all existing ones. |
| `Entries.SetItemExistingKey` | src/lib.rs:63 | Assigning a key the dict already holds keeps every key in its position. |
| `Entries.SetItemLookup` | src/lib.rs:63 | After `d[k] = v`, `d[k]` is `v` and every other key reads as before. The key set gains exactly `k`. |
| `Entries.SetItemDistinct` | src/lib.rs:63 | Assignment never creates a second copy of a key. |
| `Entries.BuildDictDistinct` | src/lib.rs:61-64 | Assigning pairs with distinct keys, in order, into an empty dict yields exactly those pairs in that order. |
| `Entries.BuildDictKeys` | src/lib.rs:61-64 | Whatever the pairs, the resulting dict has distinct keys, and they are exactly the pairs' keys. |
| `Python.ListBuilder.constructor` | src/lib.rs:54 | `PyList::empty` starts with no items. |
| `Python.ListBuilder.Append` | src/lib.rs:56 | `append` adds the item at the end and changes nothing else. |
| `Python.DictBuilder.constructor` | src/lib.rs:61 | `PyDict::new` starts with no entries. |
| `Python.DictBuilder.SetItem` | src/lib.rs:63 | `set_item` updates the entries as `Entries.SetItem` describes. |

`Bridge.Convert` and `Bridge.ConvertNumber` are the specification
functions that the lemmas above are about. `Bridge.ConvertPairs` is a
helper: it names the sequence of converted entries that
`Binding.Reader.ConvertToPy`'s dict loop assigns in order, and the loop
invariant refers to it. `Python.ListBuilder.Object` and
`Python.DictBuilder.Object` stand for `py_list.into()` and
`py_dict.into()` (src/lib.rs:58, 65). They hand back the filled container
as a Python object. `Values.WellFormed` says that
every object in a tree has distinct keys, which serde_json's `Map` type
guarantees. `Reader::new` (src/lib.rs:16-19) only delegates to
`open_database`, so `Binding.OpenDatabase` covers it.

## Left out

- The `maxminddb` decoder (`open_readfile`, `lookup`) is a foreign library. It is an oracle here: a `Decoder` holds a lookup function, and `OpenDatabase` takes the open function as a parameter. Its file format, memory mapping and file lifetime are not modelled.
- The variants of `MaxMindDBError` are those of the maxminddb crate's error enum. Only `AddressNotFoundError` is told apart by the binding. The text an error renders to (its `Display`) is a parameter of `OpenDatabase`.
- IP-address parsing by Rust's standard `IpAddr::from_str` is an oracle `string -> Option<IpAddr>`. IPv4/IPv6 textual syntax is not specified.
- Floating point: an `f64` is kept as opaque bits. Nothing relates the `i64` and `f64` views of one number. How serde_json fills those views is not modelled. For example, an unsigned value above the `i64` range has only a float view there, so the binding hands it back as a `float`.
- Binding.Reader.Get: states what the call returns, not the order of calls. That the decoder is not consulted after a parse failure appears only as the result not depending on the decoder.
- PyO3 machinery is not modelled: the GIL token, `into_py`, object identity and reference counting. The `.unwrap()` on `append` and `set_item` is left out because it cannot fail on a freshly created container. Python objects are modelled as values.
- Module registration (`maxminddb_pyo3`, src/lib.rs:81-86) is glue and is not modelled.
- Concurrency and sharing a reader between threads are not expressed in this code and are not modelled. The repeatability of lookups follows only because `Get`'s postcondition fixes its result from the reader, the parser and the address.
- Native stack depth: the conversion recurses once per tree level, and the model puts no bound on depth.
