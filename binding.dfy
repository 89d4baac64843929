/**
 * The Python-facing binding: a `Reader` over an opened MaxMind database,
 * its `get` lookup and the `open_database` entry point. The IP-address
 * parser, the database decoder and the rendering of its errors are
 * collaborators outside the binding and appear here as oracles.
 */
module Binding {
  import opened Wrappers
  import opened Values
  import opened Python
  import Bridge
  import Entries

  /** A parsed `std::net::IpAddr`. */
  datatype IpAddr = V4(v4: bv32) | V6(v6: bv128)

  /** The failures maxminddb's `MaxMindDBError` distinguishes. */
  datatype MaxMindDBError =
    | AddressNotFoundError(msg: string)
    | InvalidDatabaseError(msg: string)
    | IoError(msg: string)
    | MapError(msg: string)
    | DecodingError(msg: string)
    | InvalidNetworkError(msg: string)

  /** An opened database, seen through the decoder's answer for every address. */
  datatype Decoder = Decoder(lookup: IpAddr -> Result<Value, MaxMindDBError>)

  const INVALID_IP_ADDRESS := "Invalid IP address"
  const LOOKUP_ERROR := "Lookup error"
  const OPEN_FAILED_PREFIX := "Failed to open database: "

  /** The Python `Reader`: it holds the decoder of one opened database and never changes it. */
  class Reader {
    const decoder: Decoder

    constructor (decoder: Decoder)
      ensures this.decoder == decoder
    {
      this.decoder := decoder;
    }

    /**
     * `Reader.get(ip)`: an unparsable address raises `ValueError`, an address
     * the database does not hold gives `None`, any other decoder failure
     * raises `ValueError`, and a record found gives its conversion. The reader
     * itself is left as it was (the method modifies nothing).
     */
    method Get(ip: string, parse: string -> Option<IpAddr>) returns (r: Result<PyObject, PyErr>)
      ensures match parse(ip)
        case None => r == Err(ValueError(INVALID_IP_ADDRESS))
        case Some(addr) =>
          match decoder.lookup(addr)
          case Ok(data) => r == Ok(Bridge.Convert(data))
          case Err(AddressNotFoundError(_)) => r == Ok(PyNone)
          case Err(_) => r == Err(ValueError(LOOKUP_ERROR))
      ensures r.Err? <==>
        || parse(ip).None?
        || (decoder.lookup(parse(ip).value).Err? && !decoder.lookup(parse(ip).value).error.AddressNotFoundError?)
      ensures r.Err? ==> r.error.ValueError?
    {
      var parsed := parse(ip);
      if parsed.None? {
        return Err(ValueError(INVALID_IP_ADDRESS));
      }
      match decoder.lookup(parsed.value)
      case Ok(data) =>
        var obj := ConvertToPy(data);
        r := Ok(obj);
      case Err(AddressNotFoundError(_)) =>
        r := Ok(PyNone);
      case Err(_) =>
        r := Err(ValueError(LOOKUP_ERROR));
    }

    /** `convert_to_py`: builds the Python object for a decoded value, filling fresh lists and dicts item by item. */
    method ConvertToPy(value: Value) returns (r: PyObject)
      ensures r == Bridge.Convert(value)
      decreases value
    {
      match value
      case Null =>
        r := PyNone;
      case Bool(b) =>
        r := PyBool(b);
      case Number(n) =>
        if n.asI64.Some? {
          r := PyInt(n.asI64.value as int);
        } else if n.asF64.Some? {
          r := PyFloat(n.asF64.value);
        } else {
          r := PyNone;
        }
      case String(s) =>
        r := PyStr(s);
      case Array(arr) =>
        var list := new ListBuilder();
        for i := 0 to |arr|
          invariant list.items == Bridge.Convert(value).items[..i]
        {
          var item := ConvertToPy(arr[i]);
          list.Append(item);
        }
        r := list.Object();
      case Object(obj) =>
        ghost var pairs := Bridge.ConvertPairs(obj);
        var dict := new DictBuilder();
        for i := 0 to |obj|
          invariant dict.entries == Entries.BuildDict(pairs[..i])
        {
          var (key, val) := obj[i];
          var item := ConvertToPy(val);
          dict.SetItem(key, item);
          assert pairs[..i + 1][..i] == pairs[..i];
        }
        assert pairs[..|obj|] == pairs;
        r := dict.Object();
    }
  }

  /**
   * `open_database(path)`: a reader over the decoder the file opens to, or
   * an `IOError` whose message is "Failed to open database: " followed by
   * the decoder's description of the failure.
   */
  method OpenDatabase(
    path: string,
    openReadfile: string -> Result<Decoder, MaxMindDBError>,
    display: MaxMindDBError -> string
  ) returns (r: Result<Reader, PyErr>)
    ensures r.Ok? <==> openReadfile(path).Ok?
    ensures r.Ok? ==> r.value.decoder == openReadfile(path).value
    ensures r.Err? ==> r.error == IOError(OPEN_FAILED_PREFIX + display(openReadfile(path).error))
  {
    match openReadfile(path)
    case Err(e) =>
      r := Err(IOError(OPEN_FAILED_PREFIX + display(e)));
    case Ok(d) =>
      var reader := new Reader(d);
      r := Ok(reader);
  }
}
