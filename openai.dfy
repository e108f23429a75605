/**
 * The hosted backend (`OpenAIBackend`): a fixed catalogue of two models,
 * each with the side lengths it accepts and a prompt limit, the rule that
 * decides which width/height pairs a model takes, and the request payload
 * handed to the image client. The client call itself is not modelled.
 */
module OpenAI {
  import opened Wrappers
  import opened Base

  /** `OpenAIImagenModel`: the side lengths a model accepts (as strings) and its prompt limit. */
  datatype ImagenModel = ImagenModel(supDims: seq<string>, maxPromptLength: nat)

  const DallE2 := "dall-e-2"
  const DallE3 := "dall-e-3"

  /** The catalogue's model names, in the order the dictionary was written. */
  const ModelNames: seq<string> := [DallE2, DallE3]

  const Catalogue: map<string, ImagenModel> := map[
    DallE2 := ImagenModel(["256", "512", "1024"], 1000),
    DallE3 := ImagenModel(["1024", "1792"], 4000)]

  const QualityOpts: seq<string> := ["standard", "hd"]
  const StyleOpts: seq<string> := ["vivid", "natural"]

  predicate Distinct<T(==)>(xs: seq<T>) {
    forall i, j :: 0 <= i < j < |xs| ==> xs[i] != xs[j]
  }

  /** `chain.from_iterable`: the sequences one after the other. */
  function Flatten(xss: seq<seq<string>>): (r: seq<string>)
    ensures forall x :: x in r <==> exists i :: 0 <= i < |xss| && x in xss[i]
  {
    if xss == [] then [] else Flatten(xss[..|xss| - 1]) + xss[|xss| - 1]
  }

  /** The index of the first occurrence of `x`. */
  function FirstIndex(xs: seq<string>, x: string): (k: nat)
    requires x in xs
    ensures k < |xs| && xs[k] == x
    ensures forall j :: 0 <= j < k ==> xs[j] != x
  {
    if xs[0] == x then 0 else 1 + FirstIndex(xs[1..], x)
  }

  /** `list(dict.fromkeys(xs))`: every element of `xs` once. */
  function FromKeys(xs: seq<string>): (r: seq<string>)
    ensures Distinct(r)
    ensures forall x :: x in r <==> x in xs
  {
    if xs == [] then []
    else
      var init, last := xs[..|xs| - 1], xs[|xs| - 1];
      assert xs == init + [last];
      var r := FromKeys(init);
      if last in r then r else r + [last]
  }

  lemma FirstIndexOfPrefix(xs: seq<string>, n: nat, x: string)
    requires n <= |xs| && x in xs[..n]
    ensures FirstIndex(xs, x) == FirstIndex(xs[..n], x)
  {
    var k := FirstIndex(xs[..n], x);
    assert xs[k] == x;
  }

  /** `dict.fromkeys` keeps the elements in the order of their first occurrence. */
  lemma {:induction false} FromKeysKeepsFirstOccurrenceOrder(xs: seq<string>, i: nat, j: nat)
    requires i < j < |FromKeys(xs)|
    ensures FirstIndex(xs, FromKeys(xs)[i]) < FirstIndex(xs, FromKeys(xs)[j])
  {
    var init, last := xs[..|xs| - 1], xs[|xs| - 1];
    assert xs == init + [last];
    assert init == xs[..|xs| - 1];
    var r, r0 := FromKeys(xs), FromKeys(init);
    if j < |r0| {
      assert r[i] == r0[i] && r[j] == r0[j];
      FromKeysKeepsFirstOccurrenceOrder(init, i, j);
      FirstIndexOfPrefix(xs, |xs| - 1, r0[i]);
      FirstIndexOfPrefix(xs, |xs| - 1, r0[j]);
    } else {
      assert last !in r0 && r[j] == last && r[i] == r0[i];
      assert last !in init;
      FirstIndexOfPrefix(xs, |xs| - 1, r0[i]);
      assert xs[|xs| - 1] == last;
    }
  }

  /** A list without duplicates is its own `dict.fromkeys`; this makes `FromKeys` idempotent. */
  lemma {:induction false} FromKeysOfDistinct(xs: seq<string>)
    requires Distinct(xs)
    ensures FromKeys(xs) == xs
  {
    if xs != [] {
      var init, last := xs[..|xs| - 1], xs[|xs| - 1];
      assert Distinct(init);
      FromKeysOfDistinct(init);
      assert last !in init;
      assert xs == init + [last];
    }
  }

  lemma FromKeysIdempotent(xs: seq<string>)
    ensures FromKeys(FromKeys(xs)) == FromKeys(xs)
  {
    FromKeysOfDistinct(FromKeys(xs));
  }

  /** The models' side lengths, model by model in catalogue order. */
  function SupDimsInOrder(): seq<seq<string>> {
    seq(|ModelNames|, i requires 0 <= i < |ModelNames| => Catalogue[ModelNames[i]].supDims)
  }

  /** `all_dims`: every side length of every model, once each, in catalogue order. */
  function AllDims(): seq<string> {
    FromKeys(Flatten(SupDimsInOrder()))
  }

  lemma FromKeysSnoc(xs: seq<string>, x: string)
    ensures FromKeys(xs + [x]) == if x in FromKeys(xs) then FromKeys(xs) else FromKeys(xs) + [x]
  {
    assert (xs + [x])[..|xs|] == xs;
  }

  lemma FlattenedDims()
    ensures Flatten(SupDimsInOrder()) == ["256", "512", "1024", "1024", "1792"]
  {
    var d2, d3 := ["256", "512", "1024"], ["1024", "1792"];
    assert SupDimsInOrder() == [d2, d3];
    assert [d2, d3][..1] == [d2];
    assert [d2][..0] == [];
  }

  lemma DedupedDims()
    ensures FromKeys(["256", "512", "1024", "1024", "1792"]) == ["256", "512", "1024", "1792"]
  {
    var firsts: seq<string> := ["256", "512", "1024"];
    SideNamesDiffer();
    FromKeysOfDistinct(firsts);
    FromKeysSnoc(firsts, "1024");
    var repeated := firsts + ["1024"];
    FromKeysSnoc(repeated, "1792");
    assert repeated + ["1792"] == ["256", "512", "1024", "1024", "1792"];
    assert firsts + ["1792"] == ["256", "512", "1024", "1792"];
  }

  lemma SideNamesDiffer()
    ensures Distinct(["256", "512", "1024"])
    ensures "1024" in ["256", "512", "1024"] && "1792" !in ["256", "512", "1024"]
  {
    assert "1792"[1] != "1024"[1];
  }

  lemma AllDimsValue()
    ensures AllDims() == ["256", "512", "1024", "1792"]
  {
    FlattenedDims();
    DedupedDims();
  }

  /**
   * The hosted backend's `generation_params`, with `dims` offered as width
   * and height: five combo boxes, all well-formed.
   */
  function BackendSchema(dims: seq<string>): (r: Schema)
    ensures r.Keys == {"model_name", "width", "height", "quality", "style"}
    ensures forall k :: k in r ==> r[k].kind == ComboBox && WellFormedParam(r[k])
    ensures Offers(r["model_name"], ModelNames)
    ensures Offers(r["width"], dims) && Offers(r["height"], dims)
    ensures Offers(r["quality"], ["standard", "hd"]) && Offers(r["style"], ["vivid", "natural"])
  {
    ComboWellFormed("Model", ModelNames);
    ComboWellFormed("Illustration Width", dims);
    ComboWellFormed("Illustration Height", dims);
    ComboWellFormed("Quality", QualityOpts);
    ComboWellFormed("Style", StyleOpts);
    map[
      "model_name" := Combo("Model", ModelNames),
      "width" := Combo("Illustration Width", dims),
      "height" := Combo("Illustration Height", dims),
      "quality" := Combo("Quality", QualityOpts),
      "style" := Combo("Style", StyleOpts)]
  }

  /** `pos_prompt[:max_prompt_length]`. */
  function PromptCut(prompt: string, limit: nat): (r: string)
    ensures |r| == if |prompt| <= limit then |prompt| else limit
    ensures r == prompt[..|r|]
  {
    if |prompt| <= limit then prompt else prompt[..limit]
  }

  lemma PromptCutIdempotent(prompt: string, limit: nat)
    ensures PromptCut(PromptCut(prompt, limit), limit) == PromptCut(prompt, limit)
  {
  }

  lemma PromptWithinLimitUnchanged(prompt: string, limit: nat)
    requires |prompt| <= limit
    ensures PromptCut(prompt, limit) == prompt
  {
  }

  class OpenAIBackend {
    const models: map<string, ImagenModel> := Catalogue
    const qualityOpts: seq<string> := QualityOpts
    const styleOpts: seq<string> := StyleOpts
    const generationParams: Schema := BackendSchema(AllDims())

    constructor ()
      ensures models == Catalogue && generationParams == BackendSchema(AllDims())
    {
    }

    /** The `models` property: the catalogue's names, each once. */
    function Models(): (r: seq<string>)
      ensures Distinct(r)
      ensures forall name :: name in r <==> name in models
    {
      assert DallE2[7] != DallE3[7];
      ModelNames
    }

    /** The `supports_neg_prompt` property: this backend never sends a negative prompt. */
    predicate SupportsNegPrompt(): (ok: bool)
      ensures !ok
    {
      false
    }

    /**
     * `_is_valid_img_dims`. An unknown model raises; `dall-e-2` takes a
     * square of one of its side lengths; any other model takes two of its
     * side lengths except 1792 by 1792. Sides are compared as strings.
     */
    function IsValidImgDims(modelName: string, width: Value, height: Value): (r: Result<bool, BackendError>)
      ensures r.Failure? <==> modelName !in models
      ensures r.Failure? ==> r.error == UnknownModel(modelName)
      ensures r == Success(true) ==> width.VStr? && height.VStr?
    {
      if modelName !in models then Failure(UnknownModel(modelName))
      else
        var supDims := models[modelName].supDims;
        if modelName == DallE2 then Success(StrIn(width, supDims) && height == width)
        else if !StrIn(width, supDims) || !StrIn(height, supDims) then Success(false)
        else if width == VStr("1792") && height == VStr("1792") then Success(false)
        else Success(true)
    }

    /**
     * The request `generate_image` hands to the image client: the model is
     * looked up first, then the size is checked, and only then is the payload
     * assembled, with quality and style added only when they are legal options.
     */
    method GenerateImage(modelName: string, posPrompt: string,
                         width: Value := VStr("1024"), height: Value := VStr("1024"),
                         negPrompt: Value := VNone,
                         quality: Value := VStr("standard"), style: Value := VStr("vivid"))
      returns (r: Result<Payload, BackendError>)
      ensures modelName !in models ==> r == Failure(UnknownModel(modelName))
      ensures modelName in models && IsValidImgDims(modelName, width, height) == Success(false) ==>
                r == Failure(InvalidDimensions(width, height))
      ensures r.Success? <==> IsValidImgDims(modelName, width, height) == Success(true)
      ensures r.Success? ==>
                && r.value.Keys <= {"prompt", "model", "response_format", "size", "quality", "style"}
                && "prompt" in r.value && r.value["prompt"] == VStr(PromptCut(posPrompt, models[modelName].maxPromptLength))
                && "model" in r.value && r.value["model"] == VStr(modelName)
                && "response_format" in r.value && r.value["response_format"] == VStr("b64_json")
                && "size" in r.value && r.value["size"] == VStr(width.s + "x" + height.s)
      ensures r.Success? ==>
                && ("quality" in r.value <==> StrIn(quality, qualityOpts))
                && ("quality" in r.value ==> r.value["quality"] == quality)
      ensures r.Success? ==>
                && ("style" in r.value <==> StrIn(style, styleOpts))
                && ("style" in r.value ==> r.value["style"] == style)
      ensures r.Success? ==> "negative_prompt" !in r.value && "neg_prompt" !in r.value
    {
      if modelName !in models {
        return Failure(UnknownModel(modelName));
      }
      var model := models[modelName];
      var valid := IsValidImgDims(modelName, width, height);
      if valid != Success(true) {
        return Failure(InvalidDimensions(width, height));
      }
      var payload: Payload := map[
        "prompt" := VStr(PromptCut(posPrompt, model.maxPromptLength)),
        "model" := VStr(modelName),
        "response_format" := VStr("b64_json"),
        "size" := VStr(width.s + "x" + height.s)];
      if StrIn(quality, qualityOpts) {
        payload := payload["quality" := quality];
      }
      if StrIn(style, styleOpts) {
        payload := payload["style" := style];
      }
      return Success(payload);
    }
  }

  /** The catalogue: the side lengths and prompt limit of each of the two models, and no other model. */
  lemma CatalogueEntries()
    ensures Catalogue.Keys == {"dall-e-2", "dall-e-3"}
    ensures Catalogue["dall-e-2"] == ImagenModel(["256", "512", "1024"], 1000)
    ensures Catalogue["dall-e-3"] == ImagenModel(["1024", "1792"], 4000)
    ensures forall name :: name in Catalogue ==> Distinct(Catalogue[name].supDims)
  {
  }

  /** `dall-e-2` takes exactly the squares 256, 512 and 1024, given as strings. */
  lemma DallE2Rule(b: OpenAIBackend, width: Value, height: Value)
    ensures b.IsValidImgDims(DallE2, width, height)
         == Success(width in [VStr("256"), VStr("512"), VStr("1024")] && height == width)
  {
  }

  /** `dall-e-3` takes 1024 or 1792 on each side, except 1792 on both. */
  lemma DallE3Rule(b: OpenAIBackend, width: Value, height: Value)
    ensures b.IsValidImgDims(DallE3, width, height)
         == Success(width in [VStr("1024"), VStr("1792")] && height in [VStr("1024"), VStr("1792")]
                    && !(width == VStr("1792") && height == VStr("1792")))
  {
    assert DallE2[7] != DallE3[7];
  }

  lemma DimensionExamples(b: OpenAIBackend)
    ensures b.IsValidImgDims(DallE3, VStr("1024"), VStr("1792")) == Success(true)
    ensures b.IsValidImgDims(DallE3, VStr("1792"), VStr("1024")) == Success(true)
    ensures b.IsValidImgDims(DallE3, VStr("1792"), VStr("1792")) == Success(false)
    ensures b.IsValidImgDims(DallE2, VStr("1024"), VStr("1792")) == Success(false)
    ensures b.IsValidImgDims(DallE2, VStr("1024"), VStr("1024")) == Success(true)
  {
    DallE2Rule(b, VStr("1024"), VStr("1792"));
    DallE2Rule(b, VStr("1024"), VStr("1024"));
    DallE3Rule(b, VStr("1024"), VStr("1792"));
    DallE3Rule(b, VStr("1792"), VStr("1024"));
    DallE3Rule(b, VStr("1792"), VStr("1792"));
    assert "1024"[1] != "1792"[1];
  }

  /** Sides are compared as strings, so an integer side is never accepted, by any model. */
  lemma IntegerSideNeverValid(b: OpenAIBackend, modelName: string, n: int, other: Value)
    ensures b.IsValidImgDims(modelName, VInt(n), other) != Success(true)
    ensures b.IsValidImgDims(modelName, other, VInt(n)) != Success(true)
  {
  }

  /**
   * The published schema: five well-formed combo boxes, with `all_dims` as
   * the side options and the quality and style the image service takes.
   */
  lemma GenerationParamsFacts(b: OpenAIBackend)
    ensures WellFormedSchema(b.generationParams)
    ensures b.generationParams.Keys == {"model_name", "width", "height", "quality", "style"}
    ensures forall k :: k in b.generationParams ==> b.generationParams[k].kind == ComboBox
    ensures b.generationParams["width"].params[OptionsKey] == OptionsValue(["256", "512", "1024", "1792"])
    ensures b.generationParams["height"].params[OptionsKey] == OptionsValue(["256", "512", "1024", "1792"])
    ensures b.generationParams["model_name"].params[OptionsKey] == OptionsValue(b.Models())
    ensures b.generationParams["quality"].params[OptionsKey] == OptionsValue(["standard", "hd"])
    ensures b.generationParams["style"].params[OptionsKey] == OptionsValue(["vivid", "natural"])
  {
    AllDimsValue();
  }

  /** No two of the hosted backend's parameters share a label. */
  lemma GenerationParamsLabelsUnique(b: OpenAIBackend)
    ensures UniqueDisplayNames(b.generationParams)
  {
    var s := b.generationParams;
    assert "Illustration Width"[13] != "Illustration Height"[13];
    forall x, y | x in s && y in s && x != y
      ensures s[x].displayName != s[y].displayName
    {
    }
  }
}
