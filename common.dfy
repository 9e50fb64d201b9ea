/** Shared datatypes of the model: optional values, results, and the
    exceptions the converter raises. */
module Common {

  datatype Option<+T> = None | Some(value: T)

  datatype Result<+T, +E> = Ok(value: T) | Err(error: E)

  /** The exceptions the core raises, named after their cause; the Python
      exception class is given beside each. */
  datatype Error =
    | TypeError                       // TypeError: unsupported input type, or a None operand
    | InvalidDuration                 // ValueError: duration string outside the grammar
    | UnknownResultType(tag: string)  // ValueError: resultType is none of the four known tags
    | EmptyValues                     // ValueError: `zip(*[])` of a range series without samples
    | SlotOutOfRange                  // IndexError: a sample's slot lies outside its row
    | ZeroStep                        // ZeroDivisionError: `np.arange` with a zero step
    | EmptyLabelSpace                 // RuntimeError: no label name in any series
    | FileNotFound                    // FileNotFoundError: `os.remove` of a missing cache file
    | MissingAttribute                // AttributeError: `to_parquet` of a table that is not a DataFrame
    | Upstream(errorType: string, message: string) // RuntimeError: the server answered an error

  /** `done` followed by the list inside `r`, or `r`'s error. */
  function Prepend<T, E>(done: seq<T>, r: Result<seq<T>, E>): (p: Result<seq<T>, E>)
    ensures p.Ok? <==> r.Ok?
    ensures p.Ok? ==> |p.value| == |done| + |r.value|
    ensures p.Ok? ==> p.value[..|done|] == done && p.value[|done|..] == r.value
    ensures p.Err? ==> p.error == r.error
  {
    match r
    case Ok(rest) => Ok(done + rest)
    case Err(e) => Err(e)
  }

  /** A position of `x` in `s`. */
  ghost function IndexOf<T>(x: T, s: seq<T>): (k: nat)
    requires x in s
    ensures k < |s| && s[k] == x
  {
    var k :| 0 <= k < |s| && s[k] == x; k
  }
}
