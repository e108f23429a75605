/**
 * The vocabulary every image-generation backend shares: the kinds of
 * generation parameter, the parameter records a backend publishes for the
 * generation dialog, the Python values that travel as arguments and payload
 * entries, and the errors a backend raises.
 */
module Base {
  import opened Wrappers
  import Numerals

  /** `GenerationParamType`: a parameter is shown as a combo box or as an integer field. */
  datatype GenerationParamType = ComboBox | IntNumber

  /** A value in a parameter's kind-specific `params` dictionary. */
  datatype ParamValue = IntValue(n: int) | OptionsValue(options: seq<string>)

  /** `GenerationParam`: the kind, the label the dialog shows, and the kind-specific settings. */
  datatype GenerationParam = GenerationParam(
    kind: GenerationParamType,
    displayName: string,
    params: map<string, ParamValue>)

  /** A backend's `generation_params`: parameter name to parameter record. */
  type Schema = map<string, GenerationParam>

  const OptionsKey := "options"
  const MinKey := "min_value"
  const MaxKey := "max_value"
  const InitKey := "init_value"

  /** A combo box listing `options`. */
  function Combo(displayName: string, options: seq<string>): GenerationParam {
    GenerationParam(ComboBox, displayName, map[OptionsKey := OptionsValue(options)])
  }

  /** An integer field with its bounds and its initial value. */
  function IntField(displayName: string, min: int, max: int, init: int): GenerationParam {
    GenerationParam(IntNumber, displayName,
      map[MinKey := IntValue(min), MaxKey := IntValue(max), InitKey := IntValue(init)])
  }

  /**
   * A parameter record whose settings fit its kind: a combo box has its
   * options, an integer field has integer bounds around its initial value.
   */
  predicate WellFormedParam(p: GenerationParam) {
    match p.kind
    case ComboBox =>
      OptionsKey in p.params && p.params[OptionsKey].OptionsValue?
    case IntNumber =>
      && MinKey in p.params && p.params[MinKey].IntValue?
      && MaxKey in p.params && p.params[MaxKey].IntValue?
      && InitKey in p.params && p.params[InitKey].IntValue?
      && p.params[MinKey].n <= p.params[InitKey].n <= p.params[MaxKey].n
  }

  /** A combo box offering exactly `options`. */
  predicate Offers(p: GenerationParam, options: seq<string>) {
    p.kind == ComboBox && OptionsKey in p.params && p.params[OptionsKey] == OptionsValue(options)
  }

  /** An integer field running from `min` to `max` and starting at `init`. */
  predicate Spans(p: GenerationParam, min: int, max: int, init: int) {
    && p.kind == IntNumber
    && MinKey in p.params && p.params[MinKey] == IntValue(min)
    && MaxKey in p.params && p.params[MaxKey] == IntValue(max)
    && InitKey in p.params && p.params[InitKey] == IntValue(init)
  }

  /** A combo box is always well-formed and offers exactly the options it was given. */
  lemma ComboWellFormed(displayName: string, options: seq<string>)
    ensures WellFormedParam(Combo(displayName, options))
    ensures Combo(displayName, options).kind == ComboBox
    ensures Combo(displayName, options).params[OptionsKey] == OptionsValue(options)
  {
  }

  /** An integer field is well-formed exactly when its initial value lies within its bounds. */
  lemma IntFieldWellFormed(displayName: string, min: int, max: int, init: int)
    ensures WellFormedParam(IntField(displayName, min, max, init)) <==> min <= init <= max
    ensures Spans(IntField(displayName, min, max, init), min, max, init)
  {
  }

  predicate WellFormedSchema(s: Schema) {
    forall name :: name in s ==> WellFormedParam(s[name])
  }

  /** No two parameters of a schema share a label (the dialog looks values up by label). */
  predicate UniqueDisplayNames(s: Schema) {
    forall a, b :: a in s && b in s && a != b ==> s[a].displayName != s[b].displayName
  }

  /** A Python value passed to `generate_image` or stored in a request payload. */
  datatype Value = VNone | VInt(n: int) | VStr(s: string) | VDict(d: map<string, Value>)

  /** A request body: the keyword arguments sent to the image service. */
  type Payload = map<string, Value>

  /** Python truthiness, as `if neg_prompt:` tests it: only `None`, zero and empty values are false. */
  predicate Truthy(v: Value): (ok: bool)
    ensures !ok <==> v in {VNone, VInt(0), VStr(""), VDict(map[])}
  {
    match v
    case VNone => false
    case VInt(n) => n != 0
    case VStr(s) => s != ""
    case VDict(d) => d != map[]
  }

  /** `v in options` for a tuple or list of strings: only an equal string is a member. */
  predicate StrIn(v: Value, options: seq<string>): (ok: bool)
    ensures ok <==> exists i :: 0 <= i < |options| && v == VStr(options[i])
  {
    v.VStr? && v.s in options
  }

  /**
   * `int(v)`; `None` where Python raises `ValueError` or `TypeError`. An
   * integer converts to itself and a string exactly when it is a decimal
   * numeral; `None` and dictionaries never convert.
   */
  function IntOf(v: Value): (r: Option<int>)
    ensures v.VInt? ==> r == Some(v.n)
    ensures v.VStr? ==> (r.Some? <==> Numerals.IsDecimal(v.s))
    ensures v.VNone? || v.VDict? ==> r.None?
  {
    match v
    case VInt(n) => Some(n)
    case VStr(s) => Numerals.ParseInt(s)
    case _ => None
  }

  /** An integer's decimal text converts back to it. */
  lemma IntOfDecimalText(n: int)
    ensures IntOf(VStr(Numerals.IntToString(n))) == Some(n)
  {
    Numerals.ParseShowRoundTrip(n);
  }

  /** `range(start, stop)` with step one. */
  datatype IntRange = IntRange(start: int, stop: int) {
    predicate Contains(x: int) { start <= x < stop }
  }

  /** The exceptions a backend raises before anything is sent. */
  datatype BackendError =
    | UnknownModel(name: string)                    // ValueError('Unknown Model: ...')
    | InvalidDimensions(width: Value, height: Value) // ValueError('Invalid ... dimensions: ...')
    | UnknownDimensionName(dim: string)             // ValueError('Unknown Dimension Name: ...')
    | MissingKey(key: string)                       // KeyError on a parameter's settings
    | NotAnInteger                                  // TypeError on a non-integer bound
    | BadArguments                                  // TypeError from binding keyword arguments
}
