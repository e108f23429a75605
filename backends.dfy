/**
 * The image-generation backend contract, over the two backends the program
 * has: every backend lists its models, describes its generation parameters
 * and assembles a generation request from a model, prompts, a size and
 * extra keyword arguments. The request is modelled up to the payload it
 * would send.
 */
module Backends {
  import opened Wrappers
  import opened Base
  import OpenAI
  import SdWebUI

  datatype Backend = Hosted(openai: OpenAI.OpenAIBackend) | Local(sd: SdWebUI.SdWebUIBackend)

  /** The models a backend offers: the fixed catalogue, or the local server's snapshot. */
  function Models(b: Backend): (r: seq<string>)
    ensures b.Hosted? ==> forall name :: name in r <==> name in b.openai.models
    ensures b.Local? ==> r == b.sd.models
  {
    match b
    case Hosted(o) => o.Models()
    case Local(s) => s.models
  }

  /**
   * The backend's parameter schema: well-formed, with distinct labels, and
   * always offering the model, width and height, the model picker listing
   * exactly the backend's models.
   */
  function GenerationParams(b: Backend): (r: Schema)
    ensures WellFormedSchema(r) && UniqueDisplayNames(r)
    ensures "model_name" in r && "width" in r && "height" in r
    ensures OptionsKey in r["model_name"].params && r["model_name"].params[OptionsKey] == OptionsValue(Models(b))
  {
    match b
    case Hosted(o) =>
      HostedSchema(o);
      o.generationParams
    case Local(s) =>
      LocalSchema(s);
      s.generationParams
  }

  /** What every backend's schema promises, for the hosted backend. */
  lemma HostedSchema(o: OpenAI.OpenAIBackend)
    ensures var r := o.generationParams;
      && WellFormedSchema(r) && UniqueDisplayNames(r)
      && "model_name" in r && "width" in r && "height" in r
      && OptionsKey in r["model_name"].params && r["model_name"].params[OptionsKey] == OptionsValue(o.Models())
  {
    OpenAI.GenerationParamsFacts(o);
    OpenAI.GenerationParamsLabelsUnique(o);
  }

  /** What every backend's schema promises, for the local backend. */
  lemma LocalSchema(s: SdWebUI.SdWebUIBackend)
    ensures var r := s.generationParams;
      && WellFormedSchema(r) && UniqueDisplayNames(r)
      && "model_name" in r && "width" in r && "height" in r
      && OptionsKey in r["model_name"].params && r["model_name"].params[OptionsKey] == OptionsValue(s.models)
  {
    SdWebUI.GenerationParamsFacts(s);
    SdWebUI.GenerationParamsLabelsUnique(s);
  }

  /** The backend's own size rule for `modelName`. */
  predicate ValidDims(b: Backend, modelName: string, width: Value, height: Value) {
    match b
    case Hosted(o) => o.IsValidImgDims(modelName, width, height) == Success(true)
    case Local(s) => s.IsValidImgDims(width, height)
  }

  /**
   * The parameters every backend's method names (the bound `self` among
   * them); passing one of them again as an extra argument is refused.
   */
  const NamedParams: set<string> := {"self", "model_name", "pos_prompt", "width", "height", "neg_prompt"}

  /** The hosted backend takes no open-ended extras, only these keyword parameters. */
  const HostedExtras: set<string> := {"quality", "style"}

  /** The local backend's own keyword parameters; any other extra is passed through to the server. */
  const LocalOwnParams: set<string> := {"steps", "sampler", "scheduler"}

  /**
   * The extra keyword arguments bind to the backend's signature: none of them
   * names a parameter that is already bound, and the hosted backend takes
   * only `quality` and `style`.
   */
  predicate Binds(b: Backend, kwargs: map<string, Value>): (ok: bool)
    ensures b.Hosted? ==> (ok <==> kwargs.Keys <= HostedExtras)
    ensures b.Local? ==> (ok <==> kwargs.Keys !! NamedParams)
  {
    && (forall k :: k in kwargs ==> k !in NamedParams)
    && (b.Hosted? ==> kwargs.Keys <= HostedExtras)
  }

  /** The value bound to a keyword parameter. */
  function Arg(kwargs: map<string, Value>, key: string, default: Value): Value {
    if key in kwargs then kwargs[key] else default
  }

  /**
   * The extras the local backend forwards after binding its own keyword
   * parameters: together with those parameters they make up the caller's
   * keyword arguments, the two parts never overlap, and each forwarded value
   * is the caller's.
   */
  function Passthrough(kwargs: map<string, Value>): (r: map<string, Value>)
    ensures r.Keys + (kwargs.Keys * LocalOwnParams) == kwargs.Keys
    ensures r.Keys !! LocalOwnParams
    ensures forall k :: k in r ==> r[k] == kwargs[k]
  {
    map k | k in kwargs && k !in LocalOwnParams :: kwargs[k]
  }

  /**
   * A generation request made with keyword arguments, the contract's way to
   * call any backend. Arguments that do not bind are refused first; then an
   * unknown model, then a size the backend does not allow.
   */
  method GenerateImage(b: Backend, modelName: string, posPrompt: string, negPrompt: Value,
                       width: Value, height: Value, kwargs: map<string, Value>)
    returns (r: Result<Payload, BackendError>)
    ensures !Binds(b, kwargs) ==> r == Failure(BadArguments)
    ensures Binds(b, kwargs) && modelName !in Models(b) ==> r == Failure(UnknownModel(modelName))
    ensures Binds(b, kwargs) && modelName in Models(b) && !ValidDims(b, modelName, width, height) ==>
              r == Failure(InvalidDimensions(width, height))
    ensures r.Success? <==> Binds(b, kwargs) && modelName in Models(b) && ValidDims(b, modelName, width, height)
    ensures r.Success? && b.Hosted? ==> "negative_prompt" !in r.value && "neg_prompt" !in r.value
    ensures r.Success? && b.Local? ==>
              && "prompt" in r.value && r.value["prompt"] == VStr(posPrompt)
              && ("negative_prompt" in r.value <==> Truthy(negPrompt) || "negative_prompt" in kwargs)
  {
    if !Binds(b, kwargs) {
      return Failure(BadArguments);
    }
    match b
    case Hosted(o) =>
      r := o.GenerateImage(modelName, posPrompt, width, height, negPrompt,
                           Arg(kwargs, "quality", VStr("standard")), Arg(kwargs, "style", VStr("vivid")));
    case Local(s) =>
      var steps, sampler, scheduler := Arg(kwargs, "steps", VInt(30)), Arg(kwargs, "sampler", VNone),
                                       Arg(kwargs, "scheduler", VStr("Karras"));
      var extras := Passthrough(kwargs);
      r := s.GenerateImage(modelName, posPrompt, width, height, negPrompt, steps, sampler, scheduler, extras);
      if r.Success? {
        LocalRequestFacts(s, kwargs, modelName, posPrompt, IntOf(width).value, IntOf(height).value,
                          negPrompt, steps, sampler, scheduler);
      }
  }

  /** The local request keeps the prompt and adds a negative prompt exactly when one is given or passed through. */
  lemma LocalRequestFacts(s: SdWebUI.SdWebUIBackend, kwargs: map<string, Value>, modelName: string,
                          posPrompt: string, w: int, h: int,
                          negPrompt: Value, steps: Value, sampler: Value, scheduler: Value)
    ensures var body := Passthrough(kwargs) + s.RequestFields(modelName, posPrompt, w, h, negPrompt, steps, sampler, scheduler);
      && "prompt" in body && body["prompt"] == VStr(posPrompt)
      && ("negative_prompt" in body <==> Truthy(negPrompt) || "negative_prompt" in kwargs)
  {
    var extras := Passthrough(kwargs);
    SdWebUI.RequestFixedEntries(s, extras, modelName, posPrompt, w, h, negPrompt, steps, sampler, scheduler);
    SdWebUI.RequestOptionalEntries(s, extras, modelName, posPrompt, w, h, negPrompt, steps, sampler, scheduler);
  }

  /** The default `quality` and `style` are both legal, so a plain hosted request asks for them. */
  lemma HostedDefaultsAreLegal(o: OpenAI.OpenAIBackend)
    ensures StrIn(VStr("standard"), o.qualityOpts) && StrIn(VStr("vivid"), o.styleOpts)
  {
  }
}
