/** The Python side of a test run: the values a test case carries, the text
    Python's `str()` gives them inside an f-string, and what running the
    student's program does, which is taken as given rather than computed. */
module Python {

  import opened Wrappers

  /** The JSON-compatible Python values a test case holds. */
  datatype Value =
    | NoneValue
    | BoolValue(b: bool)
    | IntValue(i: int)
    | StrValue(s: string)
    | ListValue(items: seq<Value>)

  /** An exception: the text `str(e)` gives and the text
      `traceback.format_exc()` gives while it is being handled. */
  datatype Exception = Exception(text: string, traceback: string)

  /** The result of calling the student's `main`: a value, an exception
      (a subclass of `Exception`), or a `BaseException` that is not one,
      such as the `SystemExit` of `sys.exit()` or a `KeyboardInterrupt`. */
  datatype CallOutcome = Returned(v: Value) | Raised(e: Exception) | Escaped

  /** What `exec(code, namespace)` leaves behind: the exception it raised,
      a `BaseException` outside `Exception`, or the namespace, of which only
      `main` matters (None when `main` is not bound to a truthy value). */
  datatype Loaded =
    | ExecRaised(e: Exception)
    | ExecEscaped
    | Namespace(main: MainBinding)

  datatype MainBinding = NoMain | Main(call: seq<Value> -> CallOutcome)

  /** A submitted program: its source text, which the server inspects, and
      the behaviour `exec` gives it, which is not modelled further. */
  datatype Program = Program(code: string, loaded: Loaded)

  /** One test case as sent by the browser; a key the dictionary lacks is
      None, and looking it up raises `KeyError`. */
  datatype TestCase = TestCase(input: Option<seq<Value>>, expected: Option<Value>)

  function DigitChar(d: int): char
    requires 0 <= d < 10
  {
    "0123456789"[d]
  }

  /** Decimal digits of a natural number, most significant first. */
  function Digits(n: nat): (r: string)
    ensures |r| >= 1
    decreases n
  {
    if n < 10 then [DigitChar(n)] else Digits(n / 10) + [DigitChar(n % 10)]
  }

  /** `repr()` of a value. String escaping and Python's choice of quote
      character are not modelled. */
  function Repr(v: Value): string
    decreases v, 1
  {
    match v
    case NoneValue => "None"
    case BoolValue(b) => if b then "True" else "False"
    case IntValue(i) => if i < 0 then "-" + Digits(-i) else Digits(i)
    case StrValue(s) => "'" + s + "'"
    case ListValue(items) => "[" + ReprItems(items) + "]"
  }

  /** The elements' `repr()`, separated by ", ". */
  function ReprItems(items: seq<Value>): string
    decreases items, 0
  {
    if items == [] then ""
    else if |items| == 1 then Repr(items[0])
    else Repr(items[0]) + ", " + ReprItems(items[1..])
  }

  /** `str()` of a value, as an f-string `{v}` renders it. */
  function Str(v: Value): string {
    if v.StrValue? then v.s else Repr(v)
  }
}
