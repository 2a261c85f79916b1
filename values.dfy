/** The shapes that flow into and out of the tool handlers. */
module Values {
  import opened Wrappers

  newtype byte = x: int | 0 <= x < 256

  /** A cell as the MySQL driver hands it over, or a field of a result record. */
  datatype Value =
    | Null
    | Bool(b: bool)
    | Int(i: int)
    | Float(f: real)
    | Str(s: string)
    | Bytes(bytes: seq<byte>)
    | StrList(items: seq<string>)

  /** A JSON object built by a handler: field name to value. */
  type Record = map<string, Value>

  /** A loosely typed tool argument. Numbers decoded from JSON arrive as floats
      (finite ones here); callers inside the process may pass Go ints. */
  datatype Arg =
    | ArgFloat(f: real)
    | ArgInt(i: int)
    | ArgString(s: string)
    | ArgBool(b: bool)
    | ArgNull
    | ArgNested

  type Args = map<string, Arg>

  /** A parameter bound to a `?` placeholder. */
  datatype Param = PStr(s: string) | PInt(i: int)

  /** A statement sent to the database: its text and its bound parameters. */
  datatype Statement = Statement(text: string, params: seq<Param>)

  /** How a handler fails: a rejected argument, a database failure wrapped with
      the handler's context, or the run-time panic of an integer division by zero. */
  datatype Error = Validation(message: string) | Execution(message: string) | DivideByZero

  /** What a handler does: its result, and the statements it sent, in order. */
  datatype Outcome<T> = Outcome(result: Result<T, Error>, issued: seq<Statement>)

  /** The rows a cursor yields, each either scanned or rejected by `Scan` with a message. */
  type Rows<T> = seq<Result<T, string>>

  /** A database failure wrapped with the handler's context, as `fmt.Errorf("...: %w", err)`. */
  function Wrapped(context: string, cause: string): Error {
    Execution(context + ": " + cause)
  }
}
