/**
 * Values shared by the stores, the storage handlers and the commands:
 * optional values, exceptions that leave an operation, the feedback lines
 * of a command result, and the decimal rendering of an int that the
 * interview loader uses to report entry positions.
 */
module Results {

  datatype Option<+T> = None | Some(value: T)

  datatype Result<+T, +E> = Ok(value: T) | Err(error: E)

  /**
   * The message constants of the application's message tables. Their text
   * is not part of this model; a line that uses one is `Formatted`.
   */
  datatype Message =
    | LoadingDataFirstTime
    | LoadingDataSuccess
    | UnableToReadFile
    | CorruptedInterviewFile
    | UnableToCreateDirectory
    | UnableToCreateFile
    | FileAlreadyExists
    | UnableToWriteFile
    | UnableToLoadProfile
    | UnableToSaveProfile
    | MissingIndex
    | SuccessfulDelete
    | ProjectsViewSuccess
    | UserViewSuccess

  /** One feedback line: literal text, or a message constant with its format arguments. */
  datatype Line = Text(text: string) | Formatted(message: Message, args: seq<string>)

  /** A command's outcome: ordered feedback lines and a success flag. */
  datatype CommandResult = CommandResult(feedback: seq<Line>, isSuccessful: bool)

  /** A one-line result, as `new CommandResult(message)` followed by `setSuccessful`. */
  function Single(message: Message, successful: bool): CommandResult
  {
    CommandResult([Formatted(message, [])], successful)
  }

  /** An exception that propagates out of the operation that raised it. */
  datatype Failure =
    | JsonError                       // org.json's JSONException
    | IllegalArgument(detail: string) // IllegalArgumentException with its message
    | IndexOutOfBounds                // a string or list position outside its bounds
    | NullPointer                     // a method called on the null a HashMap returns for a missing key
    | Runtime(message: Line)          // RuntimeException with its message
    | Io(message: Line)               // IOException with its message

  /** What an operation that may throw produces: a returned value or an exception. */
  datatype Outcome<+T> = Returned(value: T) | Thrown(failure: Failure)

  predicate IsDigit(c: char)
  {
    '0' <= c <= '9'
  }

  predicate IsDecimal(s: string)
  {
    |s| > 0 && forall i :: 0 <= i < |s| ==> IsDigit(s[i])
  }

  function DigitChar(d: nat): (c: char)
    requires d < 10
    ensures IsDigit(c) && (c as int) - ('0' as int) == d
  {
    "0123456789"[d]
  }

  /** The decimal text of a non-negative int, as string concatenation in Java writes it. */
  function NatToString(n: nat): (s: string)
    ensures IsDecimal(s)
    ensures n < 10 <==> |s| == 1
    decreases n
  {
    if n < 10 then [DigitChar(n)] else NatToString(n / 10) + [DigitChar(n % 10)]
  }

  /** The number a string of decimal digits denotes. */
  function DecimalValue(s: string): nat
    requires forall i :: 0 <= i < |s| ==> IsDigit(s[i])
  {
    if s == [] then 0
    else DecimalValue(s[..|s| - 1]) * 10 + DigitValue(s[|s| - 1])
  }

  function DigitValue(c: char): nat
    requires IsDigit(c)
  {
    (c as int) - ('0' as int)
  }

  /** Reading the decimal text back gives the number: the text names the number exactly. */
  lemma {:induction false} DecimalRoundTrip(n: nat)
    ensures DecimalValue(NatToString(n)) == n
    decreases n
  {
    if n >= 10 {
      var prefix := NatToString(n / 10);
      var s := prefix + [DigitChar(n % 10)];
      assert s[..|s| - 1] == prefix;
      DecimalRoundTrip(n / 10);
    }
  }

  /** Different numbers have different decimal texts. */
  lemma NatToStringInjective(m: nat, n: nat)
    requires NatToString(m) == NatToString(n)
    ensures m == n
  {
    DecimalRoundTrip(m);
    DecimalRoundTrip(n);
  }
}
