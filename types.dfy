/** Values shared by the de-identification post-processor: results with
    Python-style errors, the few dynamically typed Python values that the
    fuzzy-match constructor inspects, entity records and label counters. */
module Types {

  datatype Option<+T> = None | Some(value: T)

  /** The Python exceptions the modelled code can raise, each with the
      cause it reports. */
  datatype Error =
    | ValueError(cause: Cause)
    | TypeError(cause: Cause)
    | AttributeError(cause: Cause)

  /** Why an exception was raised. The text each cause carries is given
      by `Message`; keeping it apart keeps long string constants out of
      the proofs about the operations that raise. */
  datatype Cause =
    | InvalidStrategy
    | InvalidProcessType
    | InvalidKnownWords
    | InvalidMaskingCharacter
    | InvalidIgnoreCasing
    | EmptyMin
    | NotIterable
    | NoLower
    | NotSubscriptable
    | NotComparable
    | InvalidScheme
    | MissingLocation

  /** The exception's message: the program's own text for the errors it
      raises, and an approximation of the interpreter's text for the
      built-in ones. */
  function Message(e: Error): string {
    match e.cause
    case InvalidStrategy => "Invalid value for strategy. Accepted values: 'BLOCK' and 'ALLOW'"
    case InvalidProcessType => "Invalid value for process_type. Accepted values: 'MARKER' and 'MASK'"
    case InvalidKnownWords => "Invalid value for known_words_list. Accepted are list, tuple or set of strings."
    case InvalidMaskingCharacter => "Invalid value for masking_character. Accepted value is a valid string"
    case InvalidIgnoreCasing => "Invalid value for ignore_casing. Accepted values: True and False"
    case EmptyMin => "min() arg is an empty sequence"
    case NotIterable => "object is not iterable"
    case NoLower => "object has no attribute 'lower'"
    case NotSubscriptable => "object is not a sequence"
    case NotComparable => "'<=' not supported between instances of 'int' and the threshold"
    case InvalidScheme => "Scheme must be one of the following: http, https"
    case MissingLocation =>
      "PAIClient needs either a url, or a scheme and host to initialize. You can find more information on which url to use here: https://docs.private-ai.com/thin-client/"
  }

  /** Either a value or the exception that replaced it; usable with `:-`. */
  datatype Result<+T> = Ok(value: T) | Err(error: Error) {
    predicate IsFailure() { Err? }

    function PropagateFailure<U>(): Result<U>
      requires Err?
    {
      Err(error)
    }

    function Extract(): T
      requires Ok?
    {
      value
    }
  }

  /** The Python values a caller may pass where the fuzzy-match processor
      checks types at run time. Sets are given in iteration order. */
  datatype PyValue =
    | PyNone
    | PyBool(b: bool)
    | PyInt(i: int)
    | PyStr(s: string)
    | PyList(items: seq<PyValue>)
    | PyTuple(items: seq<PyValue>)
    | PySet(items: seq<PyValue>)
    | PyDict(keys: seq<PyValue>)

  /** Python truthiness of a value. */
  predicate Truthy(v: PyValue) {
    match v
    case PyNone => false
    case PyBool(b) => b
    case PyInt(i) => i != 0
    case PyStr(s) => s != ""
    case PyList(xs) => xs != []
    case PyTuple(xs) => xs != []
    case PySet(xs) => xs != []
    case PyDict(ks) => ks != []
  }

  /** One detected entity: its original text, its half-open location
      `[sttIdx, endIdx)` in the original input and its best label. The
      per-label confidence map is not read by any processor. */
  datatype Entity = Entity(text: string, sttIdx: int, endIdx: int, bestLabel: string)

  /** A `defaultdict(int)` from label to count. */
  type Counts = map<string, nat>

  /** Reading a `defaultdict(int)`: a missing label counts 0. */
  function Get(counts: Counts, key: string): nat {
    if key in counts then counts[key] else 0
  }

  /** What one processor call produces: the replacement text and the
      processor's counters afterwards. */
  datatype Step = Step(replacement: string, counts: Counts)
}
