/** Shared vocabulary: optional values, the outcome of an operation that can
    raise, and Python's list indexing (negative indices count from the end). */
module Common {

  datatype Option<+T> = None | Some(value: T)

  /** The exceptions the modelled code raises (or lets escape from a library call). */
  datatype Error =
    | MissingAttribute        // "<attr> not defined on battery asset", or a KeyError on asset_info
    | UnsupportedCostType     // a marginal cost that is not a SingleValue
    | ChargeCostsExceedDischargeCosts
    | IndexOutOfRange         // IndexError on a list
    | UnknownKey              // KeyError on a dictionary
    | ZeroDivision            // ZeroDivisionError
    | NoneValue               // TypeError / AttributeError on a value that is None
    | NoAllocationFound       // "No allocation found - serious error!"
    | NoSimulationDates       // "No start and enddate provided to external model"
    | NoQuantityAndUnit       // ValueError in to_joules
    | OutOfInt64Range         // struct.error when packing a timestamp as ">q"
    | UnreadableDocument      // the energy-system document could not be decoded or loaded
    | UndecodablePayload      // UnicodeDecodeError: a message payload that is not UTF-8
    | MalformedPayload        // a payload that is not JSON or lacks a key the handler reads
    | InvalidNumber           // ValueError: int() or float() of a config entry that is not a number
    | NotSubscriptable        // TypeError: indexing a single number as if it were a list
    | NoMessageAttribute      // AttributeError: reading `e.message` of a Python 3 exception

  datatype Result<+T> = Ok(value: T) | Err(error: Error)

  type CarrierId = string

  /** The `profile_info` dictionary built for a cost or profile of the energy-system
      document: a single value, a stored series (the values the external store holds for
      it), an explicit series, or a dictionary without a `type` key. */
  datatype ProfileInfo =
    | SingleValue(value: real)
    | InfluxDBProfile(stored: seq<real>)
    | TimeSeriesProfile(values: seq<real>)
    | UntypedProfile

  /** Python's `s[i]`: negative indices count from the end, anything else raises IndexError. */
  function PyIndex<T>(s: seq<T>, i: int): (r: Result<T>)
    ensures r.Ok? <==> -|s| <= i < |s|
    ensures 0 <= i < |s| ==> r == Ok(s[i])
    ensures -|s| <= i < 0 ==> r == Ok(s[|s| + i])
  {
    if 0 <= i < |s| then Ok(s[i])
    else if -|s| <= i < 0 then Ok(s[|s| + i])
    else Err(IndexOutOfRange)
  }

  /** The list stored under `k` in a dictionary of lists after `.append(v)`,
      creating an empty list first when `k` is absent. */
  function AppendTo<K, V>(m: map<K, seq<V>>, k: K, v: V): (m': map<K, seq<V>>)
    ensures m'.Keys == m.Keys + {k}
    ensures m'[k] == (if k in m then m[k] else []) + [v]
    ensures forall j :: j in m && j != k ==> m'[j] == m[j]
  {
    m[k := (if k in m then m[k] else []) + [v]]
  }
}
