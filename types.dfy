/** Shared vocabulary of the AutoGuard model: optional values, results that
    carry the exception the Python code would raise, JSON-like setting values
    and the shape of the configuration table. */
module Types {

  datatype Option<+T> = None | Some(value: T)

  /** A computation that either yields a value or raises `error`. */
  datatype Result<+T> = Success(value: T) | Failure(error: Error)

  /** The exceptions the actions can raise.
      `ValueError` carries the exact message the actions raise it with;
      the other three come from the Python runtime (a missing dictionary key,
      a line that is not JSON, an operand of the wrong type), and
      `FloatConversionError` is the `ValueError` of `float(text)`. */
  datatype Error =
    | ValueError(message: string)
    | KeyError(key: string)
    | JsonDecodeError
    | TypeError
    | FloatConversionError(text: string)

  /** A JSON value: a setting value, or a payload the service returns. */
  datatype Value =
    | Null
    | Str(s: string)
    | Bool(b: bool)
    | Num(n: real)
    | StrList(items: seq<string>)
    | RuleList(rules: seq<seq<string>>)
    | Scores(thresholds: map<string, real>)
    | Object(fields: map<string, Value>)

  /** One task's settings record, e.g. {"mode": "DETECT", "matching_scores": {...}}. */
  type Settings = map<string, Value>

  /** The configuration table: task name to settings record. */
  type Table = map<string, Settings>

  /** Per-task sub-criterion thresholds. */
  type MatchingScores = map<string, map<string, real>>
}
