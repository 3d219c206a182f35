/** Cell values, JSON values and the Python exceptions the script can raise. */
module Values {

  /** One cell of a pandas table: what read_csv, the script's constants and
      the metadata scalars put in a column. Floats are kept as the literal
      Python prints for them; the script does no arithmetic on them. */
  datatype Value =
    | Str(s: string)
    | Int(i: int)
    | Num(lit: string)
    | Bool(b: bool)
    | Null
    | NaN

  /** A value produced by json.loads. */
  datatype Json =
    | Scalar(v: Value)
    | Object(fields: map<string, Json>)
    | Array(items: seq<Json>)

  /** The exceptions that abort the script, by their Python names.
      UnsupportedValue and UnsupportedTemplate mark inputs whose pandas or
      str.format behaviour lies outside the model. */
  datatype Error =
    | JSONDecodeError
    | KeyError(key: string)
    /** pandas' KeyError for `df[[...]]` with labels absent from the
        columns; it carries the missing labels. */
    | ColumnsNotInIndex(missing: set<string>)
    | TypeError
    | AttributeError
    | IndexError
    | ValueError
    | UnsupportedValue
    | UnsupportedTemplate

  datatype Option<+T> = None | Some(value: T)

  datatype Result<+T> = Ok(value: T) | Err(error: Error) {
    predicate IsFailure() { Err? }
    function PropagateFailure<U>(): Result<U>
      requires Err?
    {
      Err(error)
    }
    function Extract(): T
      requires Ok?
    {
      value
    }
  }

  /** A column value read from JSON: scalars only (see UnsupportedValue). */
  function AsCell(j: Json): Option<Value>
  {
    match j
    case Scalar(v) => Some(v)
    case _ => None
  }

  function DigitChar(d: nat): char
    requires d < 10
  {
    "0123456789"[d]
  }

  /** Decimal digits of n, most significant first. */
  function Decimal(n: nat): (s: string)
    ensures |s| >= 1
    ensures forall k :: 0 <= k < |s| ==> '0' <= s[k] <= '9'
  {
    if n < 10 then [DigitChar(n)] else Decimal(n / 10) + [DigitChar(n % 10)]
  }

  /** Python's str() of a cell, which is what str.format substitutes. */
  function Text(v: Value): string
  {
    match v
    case Str(s) => s
    case Int(i) => if i < 0 then "-" + Decimal(-i) else Decimal(i)
    case Num(lit) => lit
    case Bool(b) => if b then "True" else "False"
    case Null => "None"
    case NaN => "nan"
  }
}
