/** Loaded configuration values and the failure kinds the payroll pipeline can raise. */
module Values {

  /** A scalar from the JSON payload: a string or a number (Python int or float, taken exactly). */
  datatype Value = Str(s: string) | Num(x: real)

  /** One mapping of the payload's "tutors" list. */
  type Entry = map<string, Value>

  /** The Python exception a step of the pipeline raises, with the part of its message that matters. */
  datatype Error =
    | KeyError(key: string)            // a mapping lacks a key
    | AttributeError(name: string)     // `.strip` called on a number
    | IndexError                       // `split()[-1]` of a title with no word
    | ValueError(text: string)         // `float(text)` rejects its argument
    | TypeError                        // arithmetic with a string operand
    | ZeroDivisionError                // the service-fee divisor is zero
    | InvalidOperation                 // `quantize` needs more digits than the decimal context keeps
    | MissingTutors(ids: set<Value>)   // invoice identities neither on the roster nor excluded

  datatype Option<+T> = None | Some(value: T)

  datatype Result<+T> = Ok(value: T) | Err(error: Error)

  /** The result of a step that returns nothing unless it raises. */
  datatype Outcome = Pass | Fail(error: Error)
}
