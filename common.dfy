/** Values shared by the averaging, elastic-constant and run-setup modules:
    the errors the Python code raises, numeric values that may be NaN or
    infinite, and the pieces of the comma-separated result files. */
module Common {

  datatype Option<T> = None | Some(value: T)

  /** The exceptions the modelled code can raise, one variant per kind. */
  datatype Error =
    | MissingName(name: string)   // KeyError, or a local variable that was never bound (NameError)
    | IndexOutOfRange             // IndexError (list or numpy indexing)
    | NotANumber(name: string)    // float() of a token that is not a number
    | DivisionByZero              // ZeroDivisionError of Python float division
    | NegativeDimension           // numpy.zeros with a negative extent (ValueError)
    | FileMissing(path: string)   // IOError on open(..., 'r')
    | EmptyFit                    // numpy.polyfit on an empty sample
    | RankDeficient               // numpy.polyfit on a constant abscissa
    | NonFinite                   // numpy arithmetic produced inf/nan that a later call rejects
    | ColumnCount                 // numpy.loadtxt rows of unequal width

  datatype Result<T> = Success(value: T) | Failure(error: Error) {
    predicate IsFailure() { Failure? }

    function PropagateFailure<U>(): Result<U>
      requires Failure?
    {
      Failure(error)
    }

    function Extract(): T
      requires Success?
    {
      value
    }
  }

  /** A floating-point value as numpy produces it: a number, or NaN/inf
      (the mean of an empty slice, a division by zero). */
  datatype Stat = Defined(value: real) | Undefined

  /** numpy element-wise division: a zero divisor gives inf or nan. */
  function Div(a: real, b: real): (r: Stat)
    ensures r.Defined? <==> b != 0.0
    ensures r.Defined? ==> r.value * b == a
  {
    if b == 0.0 then Undefined else Defined(a / b)
  }

  /** One piece of the text of a comma-separated result file: a number
      written with str(), a ',' or a '\n'. */
  datatype Piece = Val(x: real) | Comma | EndLine

  type Record = seq<Piece>

  /** The text a row of numbers occupies in a comma-separated file:
      the fields joined with ',' and closed by '\n'. */
  function CsvRow(fields: seq<real>): (r: Record)
    ensures |fields| > 0 ==> |r| == 2 * |fields|
    ensures EndLine in r
  {
    if |fields| == 0 then [EndLine]
    else if |fields| == 1 then [Val(fields[0]), EndLine]
    else [Val(fields[0]), Comma] + CsvRow(fields[1..])
  }

  /** The text of a four-field row, piece by piece. */
  lemma CsvRowOfFour(a: real, b: real, c: real, d: real)
    ensures CsvRow([a, b, c, d]) == [Val(a), Comma, Val(b), Comma, Val(c), Comma, Val(d), EndLine]
  {
    assert [c, d][1..] == [d];
    assert CsvRow([c, d]) == [Val(c), Comma, Val(d), EndLine];
    assert [b, c, d][1..] == [c, d];
    assert CsvRow([b, c, d]) == [Val(b), Comma] + CsvRow([c, d]);
    assert [a, b, c, d][1..] == [b, c, d];
    assert CsvRow([a, b, c, d]) == [Val(a), Comma] + CsvRow([b, c, d]);
  }

  /** A record of exactly four numeric fields, as one line of res_Cs.txt
      holds: T, C11, C12, C44. */
  predicate FourFieldRow(r: Record)
  {
    |r| == 8 && r[0].Val? && r[2].Val? && r[4].Val? && r[6].Val? &&
    r == CsvRow([r[0].x, r[2].x, r[4].x, r[6].x])
  }
}
