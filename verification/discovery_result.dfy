/** What discovery makes of a device that answered: its `get_device_info`
    JSON is classified by the `model` string into one of ten device
    categories and decoded as that category's record; the Python bindings
    hand the outcome over in a take-once container. */
module DiscoveryResults {
  import opened Wrappers
  import opened Errors
  import opened Json

  /** The variants of `DiscoveryResult` (and of `PyDiscoveryResult`). */
  datatype Category =
    | GenericDevice
    | Light
    | ColorLight
    | RgbLightStrip
    | RgbicLightStrip
    | Plug
    | PlugEnergyMonitoring
    | PowerStrip
    | PowerStripEnergyMonitoring
    | Hub

  /** The model strings each category is documented for; a generic device
      is any model not listed. */
  function ModelsOf(c: Category): seq<string> {
    match c
    case GenericDevice => []
    case Light => ["L510", "L520", "L610"]
    case ColorLight => ["L530", "L530 Series", "L535", "L535B", "L630"]
    case RgbLightStrip => ["L900"]
    case RgbicLightStrip => ["L920", "L930"]
    case Plug => ["P100", "P105"]
    case PlugEnergyMonitoring => ["P110", "P110M", "P115"]
    case PowerStrip => ["P300", "P306"]
    case PowerStripEnergyMonitoring => ["P304M", "P316M"]
    case Hub => ["H100"]
  }

  /** The `match model` of `DiscoveryResult::new`. */
  function CategoryOf(model: string): (r: Category)
    ensures r != GenericDevice ==> model in ModelsOf(r)
  {
    match model
    case "L510" | "L520" | "L610" => Light
    case "L530" | "L530 Series" | "L535" | "L535B" | "L630" => ColorLight
    case "L900" => RgbLightStrip
    case "L920" | "L930" => RgbicLightStrip
    case "P100" | "P105" => Plug
    case "P110" | "P110M" | "P115" => PlugEnergyMonitoring
    case "P300" | "P306" => PowerStrip
    case "P304M" | "P316M" => PowerStripEnergyMonitoring
    case "H100" => Hub
    case _ => GenericDevice
  }

  /** Every listed model is classified as its category, and a model that no
      category lists is a generic device. */
  lemma CategoryOfIsTable(model: string, c: Category)
    ensures model in ModelsOf(c) ==> CategoryOf(model) == c
    ensures (forall d: Category :: model !in ModelsOf(d)) ==> CategoryOf(model) == GenericDevice
  {
    if model in ModelsOf(c) {
      assert CategoryOf(model) == c by {
        match c
        case GenericDevice =>
        case Light =>
        case ColorLight =>
        case RgbLightStrip =>
        case RgbicLightStrip =>
        case Plug =>
        case PlugEnergyMonitoring =>
        case PowerStrip =>
        case PowerStripEnergyMonitoring =>
        case Hub =>
      }
    }
  }

  /** A discovered device: its category and its decoded device info. The
      handler built from the same client is not modelled. */
  datatype DiscoveryResult = DiscoveryResult(category: Category, deviceInfo: Json)

  const NotAnObject := "Expected device_info result to be an object"
  const NoModelField := "Expected device_info to contain the model field"
  const ModelNotAString := "Expected device_info model field to have a string value"

  /** `DiscoveryResult::new`, given the outcome of building the generic
      handler and fetching the device info (`fetched`), and the decoding of
      that JSON as the given category's record (`decode`, the
      `from_value(..)?.decode()?` of the mapping macro). The info must be an
      object with a string `model`; the category follows from the model, and
      a decoding failure is the result's failure. */
  function NewDiscoveryResult(fetched: Result<Json, Error>, decode: (Category, Json) -> Result<Json, Error>): (r: Result<DiscoveryResult, Error>)
    ensures fetched.Err? ==> r == Err(fetched.error)
    ensures fetched.Ok? && !fetched.value.JObj? ==> r == Err(Other(NotAnObject))
    ensures fetched.Ok? && fetched.value.JObj? && Get(fetched.value, "model").None? ==> r == Err(Other(NoModelField))
    ensures fetched.Ok? && Get(fetched.value, "model").Some? && !Get(fetched.value, "model").value.JStr? ==>
      r == Err(Other(ModelNotAString))
    ensures r.Ok? <==> fetched.Ok? && Get(fetched.value, "model").Some? && Get(fetched.value, "model").value.JStr? &&
                       decode(CategoryOf(Get(fetched.value, "model").value.s), fetched.value).Ok?
    ensures r.Ok? ==> r.value.category == CategoryOf(Get(fetched.value, "model").value.s)
    ensures r.Ok? ==> r.value.deviceInfo == decode(r.value.category, fetched.value).value
    ensures r.Err? && fetched.Ok? && Get(fetched.value, "model").Some? && Get(fetched.value, "model").value.JStr? ==>
      r == Err(decode(CategoryOf(Get(fetched.value, "model").value.s), fetched.value).error)
  {
    var info :- fetched;
    if !info.JObj? then Err(Other(NotAnObject))
    else
      match Get(info, "model")
      case None => Err(Other(NoModelField))
      case Some(model) =>
        if !model.JStr? then Err(Other(ModelNotAString))
        else
          var category := CategoryOf(model.s);
          var deviceInfo :- decode(category, info);
          Ok(DiscoveryResult(category, deviceInfo))
  }

  /** The category depends on the `model` member alone: two infos with the
      same model string that decode alike give the same result. */
  lemma CategoryFromModelOnly(a: Json, b: Json, decode: (Category, Json) -> Result<Json, Error>)
    requires Get(a, "model").Some? && Get(a, "model") == Get(b, "model") && Get(a, "model").value.JStr?
    requires decode(CategoryOf(Get(a, "model").value.s), a) == decode(CategoryOf(Get(a, "model").value.s), b)
    ensures NewDiscoveryResult(Ok(a), decode) == NewDiscoveryResult(Ok(b), decode)
  {
  }

  /** `PyDiscoveryResult`: the same category and device info; the Python
      handler wraps the Rust one. */
  datatype PyDiscoveryResult = PyDiscoveryResult(kind: Category, deviceInfo: Json)

  /** `convert_result_to_py`: each variant becomes the variant of the same
      name, with the boxed device info moved out. */
  function ConvertResultToPy(d: DiscoveryResult): (r: PyDiscoveryResult) {
    PyDiscoveryResult(d.category, d.deviceInfo)
  }

  /** The Rust result a Python result was converted from. */
  function ConvertResultFromPy(p: PyDiscoveryResult): (r: DiscoveryResult) {
    DiscoveryResult(p.kind, p.deviceInfo)
  }

  /** Conversion keeps the variant and the device info, and loses nothing. */
  lemma ConvertKeepsVariant(d: DiscoveryResult, p: PyDiscoveryResult)
    ensures ConvertResultToPy(d).kind == d.category
    ensures ConvertResultFromPy(ConvertResultToPy(d)) == d
    ensures ConvertResultToPy(ConvertResultFromPy(p)) == p
  {
  }

  /** What Python sees raised: the wrapped client error, or the
      `ValueError` of a repeated `get`. */
  datatype PyError = Raised(error: Error) | ValueError(message: string)

  const GetOnceMessage := "No result or exception available. `get` can only be called once."

  /** `PyMaybeDiscoveryResult`. */
  class MaybeDiscoveryResult {
    var result: Option<PyDiscoveryResult>
    var exception: Option<Error>

    /** `convert_result_to_maybe_py`: exactly one of the two fields is set. */
    constructor FromResult(r: Result<DiscoveryResult, Error>)
      ensures r.Ok? ==> result == Some(ConvertResultToPy(r.value)) && exception.None?
      ensures r.Err? ==> result.None? && exception == Some(r.error)
      ensures Holds()
    {
      if r.Ok? {
        result := Some(ConvertResultToPy(r.value));
        exception := None;
      } else {
        result := None;
        exception := Some(r.error);
      }
    }

    /** Exactly one of result and exception is present, as conversion leaves it. */
    predicate Holds()
      reads this
    {
      result.Some? != exception.Some?
    }

    /** `get`: takes the result if there is one, else takes and raises the
        exception, else raises the `ValueError`. Either way a converted
        container is empty afterwards. */
    method Get() returns (r: Result<PyDiscoveryResult, PyError>)
      modifies this
      ensures old(result).Some? ==> r == Ok(old(result).value) && result.None? && exception == old(exception)
      ensures old(result).None? && old(exception).Some? ==>
        r == Err(Raised(old(exception).value)) && result.None? && exception.None?
      ensures old(result).None? && old(exception).None? ==>
        r == Err(ValueError(GetOnceMessage)) && result.None? && exception.None?
      ensures old(Holds()) ==> result.None? && exception.None?
    {
      if result.Some? {
        r := Ok(result.value);
        result := None;
      } else if exception.Some? {
        r := Err(Raised(exception.value));
        exception := None;
      } else {
        r := Err(ValueError(GetOnceMessage));
      }
    }
  }

  /** Converting a discovery outcome and calling `get` twice: the first call
      hands over the converted result or raises the error, and the second
      always raises the `ValueError`. */
  method GetTwice(outcome: Result<DiscoveryResult, Error>) returns (first: Result<PyDiscoveryResult, PyError>, second: Result<PyDiscoveryResult, PyError>)
    ensures outcome.Ok? ==> first == Ok(ConvertResultToPy(outcome.value))
    ensures outcome.Err? ==> first == Err(Raised(outcome.error))
    ensures second == Err(ValueError(GetOnceMessage))
  {
    var m := new MaybeDiscoveryResult.FromResult(outcome);
    first := m.Get();
    second := m.Get();
  }
}
