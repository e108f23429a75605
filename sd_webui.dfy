/**
 * The local backend (`SdWebUIBackend`), which talks to a Stable Diffusion
 * web UI. Its model, sampler and scheduler lists come from the server; here
 * they are one snapshot given to the constructor. The model covers the
 * parameter schema, the dimension check and the `txt2img` request body; the
 * HTTP requests themselves are not modelled.
 */
module SdWebUI {
  import opened Wrappers
  import opened Base
  import Numerals

  const DefaultHost := "127.0.0.1"
  const DefaultPort := 7860

  const MinSide := 256
  const MaxSide := 2048

  /**
   * `f'http://{host}:{port}/sdapi/v1'`: the host after the scheme, then the
   * port as text that reads back as the port, then the API path.
   */
  function Endpoint(host: string, port: int): (r: string)
    ensures |r| > |host| + 17 && r[..|host| + 8] == "http://" + host + ":" && r[|r| - 9..] == "/sdapi/v1"
    ensures Numerals.ParseInt(r[|host| + 8..|r| - 9]) == Some(port)
  {
    var digits := Numerals.IntToString(port);
    Numerals.ParseShowRoundTrip(port);
    var r := "http://" + host + ":" + digits + "/sdapi/v1";
    assert r[..|host| + 8] == "http://" + host + ":";
    assert r[|host| + 8..|r| - 9] == digits;
    r
  }

  /**
   * The local backend's `generation_params`, given the server's lists: three
   * combo boxes over those lists and three integer fields whose initial
   * values lie within their bounds.
   */
  function BackendSchema(models: seq<string>, samplers: seq<string>, schedulers: seq<string>): (r: Schema)
    ensures r.Keys == {"model_name", "width", "height", "steps", "sampler", "scheduler"}
    ensures WellFormedSchema(r)
    ensures Offers(r["model_name"], models) && Offers(r["sampler"], samplers) && Offers(r["scheduler"], schedulers)
    ensures Spans(r["width"], MinSide, MaxSide, 1024) && Spans(r["height"], MinSide, MaxSide, 1024)
    ensures Spans(r["steps"], 1, 100, 30)
  {
    ComboWellFormed("Model", models);
    ComboWellFormed("Sampler", samplers);
    ComboWellFormed("Scheduler", schedulers);
    IntFieldWellFormed("Illustration Width", MinSide, MaxSide, 1024);
    IntFieldWellFormed("Illustration Height", MinSide, MaxSide, 1024);
    IntFieldWellFormed("Steps", 1, 100, 30);
    map[
      "model_name" := Combo("Model", models),
      "width" := IntField("Illustration Width", MinSide, MaxSide, 1024),
      "height" := IntField("Illustration Height", MinSide, MaxSide, 1024),
      "steps" := IntField("Steps", 1, 100, 30),
      "sampler" := Combo("Sampler", samplers),
      "scheduler" := Combo("Scheduler", schedulers)]
  }

  /** The keys `generate_image` itself writes into the request body. */
  const RequestKeys: set<string> :=
    {"prompt", "width", "height", "override_settings", "negative_prompt", "steps", "sampler_name", "scheduler"}

  /**
   * `key` holds `v` when `added`; otherwise it is there exactly when the
   * caller's extra keyword arguments had it, with their value.
   */
  predicate AddedOrPassedThrough(payload: Payload, kwargs: map<string, Value>, key: string, added: bool, v: Value) {
    if added then key in payload && payload[key] == v
    else (key in payload <==> key in kwargs) && (key in kwargs ==> payload[key] == kwargs[key])
  }

  /** `m` with `key` set to `v` when `add` holds. */
  function With(m: Payload, add: bool, key: string, v: Value): Payload {
    if add then m[key := v] else m
  }

  /** The four keys `generate_image` writes only when their value is usable. */
  const OptionalKeys: set<string> := {"negative_prompt", "steps", "sampler_name", "scheduler"}

  /** The entries every request has: prompt, both sides and the checkpoint to load. */
  function FixedFields(modelName: string, posPrompt: string, w: int, h: int): (r: Payload)
    ensures r.Keys == {"prompt", "width", "height", "override_settings"} && r.Keys !! OptionalKeys
  {
    map[
      "prompt" := VStr(posPrompt),
      "width" := VInt(w),
      "height" := VInt(h),
      "override_settings" := VDict(map["sd_model_checkpoint" := VStr(modelName)])]
  }

  lemma UnionWithEmpty(a: Payload)
    ensures a == a + map[]
  {
  }

  lemma UnionAssociates(a: Payload, b: Payload, c: Payload)
    ensures (a + b) + c == a + (b + c)
  {
  }

  /** A conditional write over a union is the same write over its right-hand side. */
  lemma WriteOverUnion(a: Payload, b: Payload, add: bool, key: string, v: Value)
    ensures (if add then (a + b)[key := v] else a + b) == a + With(b, add, key, v)
  {
  }

  class SdWebUIBackend {
    const host: string
    const port: int
    /** The server's answers to `GET /sd-models`, `/samplers` and `/schedulers`, taken once. */
    const models: seq<string>
    const samplers: seq<string>
    const schedulers: seq<string>
    const baseEndpoint: string := Endpoint(host, port)
    const generationParams: Schema := BackendSchema(models, samplers, schedulers)

    constructor (models: seq<string>, samplers: seq<string>, schedulers: seq<string>,
                 host: string := DefaultHost, port: int := DefaultPort)
      ensures this.host == host && this.port == port
      ensures this.models == models && this.samplers == samplers && this.schedulers == schedulers
      ensures baseEndpoint == Endpoint(host, port)
      ensures generationParams == BackendSchema(models, samplers, schedulers)
    {
      this.host := host;
      this.port := port;
      this.models := models;
      this.samplers := samplers;
      this.schedulers := schedulers;
    }

    /**
     * `_get_dim_range`: `range(min_value, max_value + 1)` of the named
     * parameter. An unknown name raises `ValueError`; a parameter without
     * integer bounds raises `KeyError` or `TypeError`.
     */
    function GetDimRange(dim: string): (r: Result<IntRange, BackendError>)
      ensures r == Failure(UnknownDimensionName(dim)) <==> dim !in generationParams
      ensures r.Success? ==>
                && dim in generationParams
                && var p := generationParams[dim].params;
                && MinKey in p && p[MinKey].IntValue? && MaxKey in p && p[MaxKey].IntValue?
                && forall x {:trigger r.value.Contains(x)} ::
                     r.value.Contains(x) <==> p[MinKey].n <= x <= p[MaxKey].n
      ensures (dim in generationParams && generationParams[dim].kind == IntNumber
               && WellFormedParam(generationParams[dim])) ==> r.Success?
    {
      if dim !in generationParams then Failure(UnknownDimensionName(dim))
      else
        var p := generationParams[dim].params;
        if MinKey !in p then Failure(MissingKey(MinKey))
        else if MaxKey !in p then Failure(MissingKey(MaxKey))
        else if !p[MaxKey].IntValue? || !p[MinKey].IntValue? then Failure(NotAnInteger)
        else Success(IntRange(p[MinKey].n, p[MaxKey].n + 1))
    }

    /**
     * `_is_valid_img_dims`: both sides convert with `int()` and fall in the
     * width and height ranges; any failure on the way gives `false`.
     */
    predicate IsValidImgDims(width: Value, height: Value): (ok: bool)
      ensures ok <==>
                && IntOf(width).Some? && MinSide <= IntOf(width).value <= MaxSide
                && IntOf(height).Some? && MinSide <= IntOf(height).value <= MaxSide
    {
      DimRanges(this);
      match (IntOf(width), GetDimRange("width"), IntOf(height), GetDimRange("height"))
      case (Some(w), Success(wr), Some(h), Success(hr)) => wr.Contains(w) && hr.Contains(h)
      case _ => false
    }

    /** Whether `generate_image` adds `steps`: the value lies in the `steps` parameter's range. */
    predicate StepsInRange(steps: Value): (ok: bool)
      ensures ok <==> steps.VInt? && 1 <= steps.n <= 100
    {
      DimRanges(this);
      match GetDimRange("steps")
      case Success(rg) => steps.VInt? && rg.Contains(steps.n)
      case Failure(_) => false
    }

    /**
     * The entries `generate_image` adds once the fixed ones are written:
     * each of the four only when its value is usable, and then with that value.
     */
    function OptionalFields(negPrompt: Value, steps: Value, sampler: Value, scheduler: Value): (r: Payload)
      ensures r.Keys <= OptionalKeys
      ensures "negative_prompt" in r <==> Truthy(negPrompt)
      ensures "steps" in r <==> steps.VInt? && 1 <= steps.n <= 100
      ensures "sampler_name" in r <==> StrIn(sampler, samplers)
      ensures "scheduler" in r <==> StrIn(scheduler, schedulers)
      ensures "negative_prompt" in r ==> r["negative_prompt"] == negPrompt
      ensures "steps" in r ==> r["steps"] == steps
      ensures "sampler_name" in r ==> r["sampler_name"] == sampler
      ensures "scheduler" in r ==> r["scheduler"] == scheduler
    {
      With(With(With(With(map[],
        Truthy(negPrompt), "negative_prompt", negPrompt),
        StepsInRange(steps), "steps", steps),
        StrIn(sampler, samplers), "sampler_name", sampler),
        StrIn(scheduler, schedulers), "scheduler", scheduler)
    }

    /**
     * The entries `generate_image` writes over the caller's extra keyword
     * arguments: prompt, sides and checkpoint always; the other four only
     * when their value is usable.
     */
    function RequestFields(modelName: string, posPrompt: string, w: int, h: int,
                           negPrompt: Value, steps: Value, sampler: Value, scheduler: Value): (r: Payload)
      ensures {"prompt", "width", "height", "override_settings"} <= r.Keys <= RequestKeys
      ensures r["prompt"] == VStr(posPrompt) && r["width"] == VInt(w) && r["height"] == VInt(h)
      ensures r["override_settings"] == VDict(map["sd_model_checkpoint" := VStr(modelName)])
      ensures "negative_prompt" in r <==> Truthy(negPrompt)
      ensures "steps" in r <==> steps.VInt? && 1 <= steps.n <= 100
      ensures "sampler_name" in r <==> StrIn(sampler, samplers)
      ensures "scheduler" in r <==> StrIn(scheduler, schedulers)
    {
      FixedFields(modelName, posPrompt, w, h) + OptionalFields(negPrompt, steps, sampler, scheduler)
    }

    /**
     * `generate_image` up to the request: the model is checked first, then
     * the size, and only then is the body built, key by key, over the
     * caller's extra keyword arguments.
     */
    method GenerateImage(modelName: string, posPrompt: string,
                         width: Value := VInt(1024), height: Value := VInt(1024),
                         negPrompt: Value := VNone, steps: Value := VInt(30),
                         sampler: Value := VNone, scheduler: Value := VStr("Karras"),
                         kwargs: map<string, Value> := map[])
      returns (r: Result<Payload, BackendError>)
      ensures modelName !in models ==> r == Failure(UnknownModel(modelName))
      ensures modelName in models && !IsValidImgDims(width, height) ==>
                r == Failure(InvalidDimensions(width, height))
      ensures r.Success? <==> modelName in models && IsValidImgDims(width, height)
      ensures r.Success? ==>
                && IntOf(width).Some? && IntOf(height).Some?
                && r.value == kwargs + RequestFields(modelName, posPrompt, IntOf(width).value, IntOf(height).value,
                                                     negPrompt, steps, sampler, scheduler)
    {
      if modelName !in models {
        return Failure(UnknownModel(modelName));
      }
      if !IsValidImgDims(width, height) {
        return Failure(InvalidDimensions(width, height));
      }
      var w, h := IntOf(width).value, IntOf(height).value;
      var base := kwargs + FixedFields(modelName, posPrompt, w, h);
      var payload := base;
      ghost var added: Payload := map[];
      UnionWithEmpty(base);
      if Truthy(negPrompt) {
        payload := payload["negative_prompt" := negPrompt];
      }
      WriteOverUnion(base, added, Truthy(negPrompt), "negative_prompt", negPrompt);
      added := With(added, Truthy(negPrompt), "negative_prompt", negPrompt);
      assert payload == base + added;
      if StepsInRange(steps) {
        payload := payload["steps" := steps];
      }
      WriteOverUnion(base, added, StepsInRange(steps), "steps", steps);
      added := With(added, StepsInRange(steps), "steps", steps);
      assert payload == base + added;
      if StrIn(sampler, samplers) {
        payload := payload["sampler_name" := sampler];
      }
      WriteOverUnion(base, added, StrIn(sampler, samplers), "sampler_name", sampler);
      added := With(added, StrIn(sampler, samplers), "sampler_name", sampler);
      assert payload == base + added;
      if StrIn(scheduler, schedulers) {
        payload := payload["scheduler" := scheduler];
      }
      WriteOverUnion(base, added, StrIn(scheduler, schedulers), "scheduler", scheduler);
      added := With(added, StrIn(scheduler, schedulers), "scheduler", scheduler);
      assert payload == base + added;
      UnionAssociates(kwargs, FixedFields(modelName, posPrompt, w, h), added);
      return Success(payload);
    }
  }

  /**
   * The prompt, both sides as integers and the checkpoint are always in the
   * body, whatever the caller's extra keyword arguments say.
   */
  lemma RequestFixedEntries(b: SdWebUIBackend, kwargs: map<string, Value>, modelName: string, posPrompt: string,
                            w: int, h: int, negPrompt: Value, steps: Value, sampler: Value, scheduler: Value)
    ensures var body := kwargs + b.RequestFields(modelName, posPrompt, w, h, negPrompt, steps, sampler, scheduler);
      && "prompt" in body && body["prompt"] == VStr(posPrompt)
      && "width" in body && body["width"] == VInt(w)
      && "height" in body && body["height"] == VInt(h)
      && "override_settings" in body
      && body["override_settings"] == VDict(map["sd_model_checkpoint" := VStr(modelName)])
  {
  }

  /**
   * `negative_prompt` only for a truthy negative prompt, `steps` only in
   * 1..100, the sampler and scheduler only when the server lists them; a key
   * not added is left as the extra keyword arguments had it.
   */
  lemma RequestOptionalEntries(b: SdWebUIBackend, kwargs: map<string, Value>, modelName: string, posPrompt: string,
                               w: int, h: int, negPrompt: Value, steps: Value, sampler: Value, scheduler: Value)
    ensures var body := kwargs + b.RequestFields(modelName, posPrompt, w, h, negPrompt, steps, sampler, scheduler);
      && AddedOrPassedThrough(body, kwargs, "negative_prompt", Truthy(negPrompt), negPrompt)
      && AddedOrPassedThrough(body, kwargs, "steps", steps.VInt? && 1 <= steps.n <= 100, steps)
      && AddedOrPassedThrough(body, kwargs, "sampler_name", StrIn(sampler, b.samplers), sampler)
      && AddedOrPassedThrough(body, kwargs, "scheduler", StrIn(scheduler, b.schedulers), scheduler)
  {
    DimRanges(b);
  }

  /** Every other extra keyword argument reaches the body unchanged, and nothing else is added. */
  lemma RequestPassesOtherArguments(b: SdWebUIBackend, kwargs: map<string, Value>, modelName: string,
                                    posPrompt: string, w: int, h: int,
                                    negPrompt: Value, steps: Value, sampler: Value, scheduler: Value)
    ensures var body := kwargs + b.RequestFields(modelName, posPrompt, w, h, negPrompt, steps, sampler, scheduler);
      && (forall k :: k in kwargs && k !in RequestKeys ==> k in body && body[k] == kwargs[k])
      && (forall k :: k in body ==> k in kwargs || k in RequestKeys)
  {
  }

  /** The integer parameters' ranges: 256 to 2048 for the sides, 1 to 100 for the steps. */
  lemma DimRanges(b: SdWebUIBackend)
    ensures b.GetDimRange("width") == Success(IntRange(MinSide, MaxSide + 1))
    ensures b.GetDimRange("height") == Success(IntRange(MinSide, MaxSide + 1))
    ensures b.GetDimRange("steps") == Success(IntRange(1, 101))
    ensures b.GetDimRange("model_name") == Failure(MissingKey(MinKey))
    ensures b.GetDimRange("sampler") == Failure(MissingKey(MinKey))
    ensures b.GetDimRange("scheduler") == Failure(MissingKey(MinKey))
  {
  }

  /** A side that `int()` cannot convert makes the size invalid instead of raising. */
  lemma UnconvertibleSideInvalid(b: SdWebUIBackend, width: Value, height: Value)
    requires IntOf(width).None? || IntOf(height).None?
    ensures !b.IsValidImgDims(width, height)
  {
  }

  lemma DimensionExamples(b: SdWebUIBackend)
    ensures !b.IsValidImgDims(VInt(255), VInt(1024))
    ensures b.IsValidImgDims(VInt(1024), VInt(1024))
    ensures b.IsValidImgDims(VInt(512), VInt(2048))
    ensures b.IsValidImgDims(VStr("768"), VInt(1024))
    ensures !b.IsValidImgDims(VStr("abc"), VInt(1024))
    ensures !b.IsValidImgDims(VInt(1024), VNone)
  {
    assert Numerals.ParseInt("768") == Some(768) by {
      assert "768"[..2] == "76" && "76"[..1] == "7" && "7"[..0] == "";
    }
  }

  /**
   * Every integer parameter starts inside its bounds, and every parameter
   * fits its kind; the three combo boxes offer the server's lists.
   */
  lemma GenerationParamsFacts(b: SdWebUIBackend)
    ensures WellFormedSchema(b.generationParams)
    ensures b.generationParams.Keys == {"model_name", "width", "height", "steps", "sampler", "scheduler"}
    ensures b.generationParams["model_name"].params[OptionsKey] == OptionsValue(b.models)
    ensures b.generationParams["sampler"].params[OptionsKey] == OptionsValue(b.samplers)
    ensures b.generationParams["scheduler"].params[OptionsKey] == OptionsValue(b.schedulers)
    ensures b.generationParams["model_name"].kind == ComboBox && b.generationParams["sampler"].kind == ComboBox
    ensures b.generationParams["scheduler"].kind == ComboBox
    ensures b.generationParams["width"].kind == IntNumber && b.generationParams["height"].kind == IntNumber
    ensures b.generationParams["steps"].kind == IntNumber
  {
  }

  /** No two of the local backend's parameters share a label. */
  lemma GenerationParamsLabelsUnique(b: SdWebUIBackend)
    ensures UniqueDisplayNames(b.generationParams)
  {
    var s := b.generationParams;
    assert "Illustration Width"[13] != "Illustration Height"[13];
    assert "Sampler"[1] != "Scheduler"[1];
    forall x, y | x in s && y in s && x != y
      ensures s[x].displayName != s[y].displayName
    {
    }
  }

  /** The default endpoint is `http://127.0.0.1:7860/sdapi/v1`. */
  lemma DefaultEndpoint()
    ensures Endpoint(DefaultHost, DefaultPort) == "http://127.0.0.1:7860/sdapi/v1"
  {
    assert Numerals.IntToString(7860) == "7860" by {
      assert Numerals.NatToString(7) == "7";
    }
  }
}
