/**
 * The record model and the status contract shared by the three storage
 * adapters: a record is a mapping from field name to field value, and every
 * operation answers with a status (0 for success, 1 for failure), signals an
 * unsupported operation, or lets a runtime exception escape to the caller.
 */
module Records {

  datatype Option<+T> = None | Some(value: T)

  /** A record: field name -> field value; the order of the fields is irrelevant. */
  type Record = map<string, string>

  /** Runtime exceptions that the adapters do not catch and that reach the caller. */
  datatype RuntimeError =
    | NullPointer             // a null reference was dereferenced
    | StringIndexOutOfBounds  // StringBuilder.setLength(-1)
    | NumberFormat            // Integer.parseInt of a missing or malformed number

  /** What an adapter operation produces for its caller. */
  datatype Status =
    | Ok                          // the integer status 0
    | Failed                      // the integer status 1
    | Unsupported                 // UnsupportedOperationException: the backend cannot do this
    | Uncaught(error: RuntimeError)
  {
    /** The integer the Java method returns, when it returns at all. */
    function Code(): (c: int)
      requires Ok? || Failed?
      ensures c == 0 <==> Ok?
      ensures c == 0 || c == 1
    {
      if Ok? then 0 else 1
    }
  }

  /** A HashMap as its iterator yields it: the entries in iteration order. */
  type Entries = seq<(string, string)>

  predicate DistinctKeys(e: Entries) {
    forall i, j :: 0 <= i < j < |e| ==> e[i].0 != e[j].0
  }

  /** The field names of `e`, in iteration order. */
  function Names(e: Entries): (r: seq<string>)
    ensures |r| == |e| && forall i :: 0 <= i < |e| ==> r[i] == e[i].0
  {
    if e == [] then [] else Names(e[..|e| - 1]) + [e[|e| - 1].0]
  }

  /** The field values of `e`, in iteration order. */
  function Values(e: Entries): (r: seq<string>)
    ensures |r| == |e| && forall i :: 0 <= i < |e| ==> r[i] == e[i].1
  {
    if e == [] then [] else Values(e[..|e| - 1]) + [e[|e| - 1].1]
  }
}
