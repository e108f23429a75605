# br image backends and reader helpers, in Dafny

This project models the part of the `br` e-book reader that has rules you can state.

- **Image-generation backends.** There are two:
  - the hosted OpenAI backend, with a fixed DALL·E catalogue;
  - the local Stable Diffusion web UI backend, whose model, sampler and scheduler lists come from the server.

  For each backend the model covers:
  - the parameter schema it publishes for the generation dialog;
  - its size validation;
  - the request payload `generate_image` builds before the network call.
- **The backend contract.** Every backend lists its models, publishes its parameters and turns a model, prompts, a size and extra keyword arguments into a request.
- **Small pure helpers:**
  - the `Illustration` record;
  - caption truncation;
  - image scaling;
  - the `font-family` stripper the reader applies to book HTML;
  - the anchor split used when a link is clicked.

Modules, one per source file plus the shared vocabulary:

| file | module | models |
|---|---|---|
| `wrappers.dfy` | `Wrappers` | `Option` and `Result` |
| `numerals.dfy` | `Numerals` | `int()` on strings, `str()` on integers, truncating division |
| `base.dfy` | `Base` | parameter kinds and records, Python argument values, backend errors |
| `openai.dfy` | `OpenAI` | the hosted backend, as a class |
| `sd_webui.dfy` | `SdWebUI` | the local backend, as a class |
| `backends.dfy` | `Backends` | the backend contract over both backends |
| `font_family.dfy` | `FontFamily` | the `font-family` pattern as a left-to-right scan, with a declarative reference |
| `ui_utils.dfy` | `UiUtils` | the UI helpers |
| `book_utils.dfy` | `BookUtils` | the book loader's copy of the stripper |
| `widgets.dfy` | `Widgets` | the anchor split of `scroll_to_anchor` |

How Python is represented:
- Values passed to `generate_image` are `Base.Value`: `None`, integers, strings or dictionaries. This lets the model say that the integer `1024` is not the string `'1024'`.
- Each raised exception becomes a `Failure` carrying a `BackendError`.
- Each backend is a class whose constant fields are the ones its `__init__` sets.
- Each backend's `generate_image` is a method that builds its payload step by step, the way the source does.

## Model

| member | source | states |
|---|---|---|
| `Numerals.ParseInt` | br/imagen/backends/sd_webui.py:60-61 | `int()` of a string succeeds exactly on an optional `+` or `-` followed by one or more digits; the sign of the result follows the sign character |
| `Numerals.IntToString` | br/imagen/backends/sd_webui.py:13 | the decimal text of an integer is a well-formed numeral, with a leading `-` exactly for negative numbers |
| `Numerals.ParseShowRoundTrip` | br/imagen/backends/sd_webui.py:13 | `int(str(n)) == n` for every integer |
| `Numerals.DigitsRoundTrip` | br/imagen/backends/sd_webui.py:13 | the digits of a natural number read back as that number |
| `Numerals.TruncDiv` | br/ui/utils.py:43 | rounding toward zero: the magnitude of the quotient is `abs(a) // abs(b)`, a non-zero quotient is negative exactly when the operands' signs differ, and on non-negative operands it is floor division |
| `Numerals.MulDivCancel` | br/ui/utils.py:39-43 | multiplying by `d` and then dividing by `d` gives the number back, whatever the signs |
| `Base.ComboWellFormed` | br/imagen/backends/base.py:6-14 | a combo-box parameter is well-formed and offers exactly its options |
| `Base.IntFieldWellFormed` | br/imagen/backends/base.py:6-14 | an integer-field parameter is well-formed exactly when `min_value <= init_value <= max_value`, and it carries the bounds and initial value it was given |
| `Base.Truthy` | br/imagen/backends/sd_webui.py:116 | Python truthiness: a value is false exactly when it is `None`, `0`, `''` or `{}` |
| `Base.StrIn` | br/imagen/backends/sd_webui.py:120-123 | `v in options` for a list of strings: true exactly when `v` is a string equal to one of the options; an integer or `None` is never in it |
| `Base.IntOf` | br/imagen/backends/sd_webui.py:60-61 | `int(v)`: an integer converts to itself, a string converts exactly when it is a decimal numeral, and `None` or a dictionary does not convert |
| `Base.IntOfDecimalText` | br/imagen/backends/sd_webui.py:112-113 | `int(str(n)) == n` through the value layer: the decimal text of any integer converts back to it |
| `OpenAI.Flatten` | br/imagen/backends/openai.py:28 | `chain.from_iterable`: an element is in the result exactly when it is in one of the inputs |
| `OpenAI.FromKeys` | br/imagen/backends/openai.py:26-30 | `list(dict.fromkeys(...))` has no duplicates and has the same elements as its input |
| `OpenAI.FromKeysKeepsFirstOccurrenceOrder` | br/imagen/backends/openai.py:26-30 | the de-duplicated list orders elements by their first occurrence in the input |
| `OpenAI.FromKeysOfDistinct` | br/imagen/backends/openai.py:26-30 | a list that is already duplicate-free is unchanged |
| `OpenAI.FromKeysIdempotent` | br/imagen/backends/openai.py:26-30 | de-duplicating twice equals de-duplicating once |
| `OpenAI.CatalogueEntries` | br/imagen/backends/openai.py:20-23 | the catalogue has exactly `dall-e-2` with sides `256`, `512`, `1024` and prompt limit 1000, and `dall-e-3` with sides `1024`, `1792` and prompt limit 4000; no model lists a side twice |
| `OpenAI.AllDimsValue` | br/imagen/backends/openai.py:20-30 | `all_dims` is `['256', '512', '1024', '1792']` |
| `OpenAI.PromptCut` | br/imagen/backends/openai.py:104 | the cut prompt is a prefix of the prompt, of length `min(len(prompt), limit)` |
| `OpenAI.PromptCutIdempotent` | br/imagen/backends/openai.py:104 | cutting twice equals cutting once |
| `OpenAI.PromptWithinLimitUnchanged` | br/imagen/backends/openai.py:104 | a prompt within the limit is sent whole |
| `OpenAI.BackendSchema` | br/imagen/backends/openai.py:31-57 | exactly the keys model, width, height, quality and style; every parameter is a well-formed combo box; the model picker offers the catalogue's names, width and height offer the given side list, quality offers `standard`/`hd` and style `vivid`/`natural` |
| `OpenAI.OpenAIBackend.constructor` | br/imagen/backends/openai.py:17-57 | the backend holds the two-model catalogue and the schema built from `all_dims` |
| `OpenAI.OpenAIBackend.IsValidImgDims` | br/imagen/backends/openai.py:59-73 | raises `Unknown Model` exactly for a name outside the catalogue; a size it accepts has string sides |
| `OpenAI.OpenAIBackend.GenerateImage` | br/imagen/backends/openai.py:87-112 | an unknown model fails before the size check, and an invalid size fails next; otherwise the payload always has the cut prompt, `model`, `response_format = 'b64_json'` and `size = width + 'x' + height`; `quality` and `style` are present exactly when they are legal options; no other keys, and never a negative prompt |
| `OpenAI.OpenAIBackend.Models` | br/imagen/backends/openai.py:79-81 | `models` lists exactly the catalogue's names, each once |
| `OpenAI.OpenAIBackend.SupportsNegPrompt` | br/imagen/backends/openai.py:83-85 | `supports_neg_prompt` is false |
| `OpenAI.DallE2Rule` | br/imagen/backends/openai.py:66-67 | for `dall-e-2` a size is valid exactly when the width is `'256'`, `'512'` or `'1024'` and the height equals it |
| `OpenAI.DallE3Rule` | br/imagen/backends/openai.py:68-73 | for `dall-e-3` a size is valid exactly when both sides are `'1024'` or `'1792'` and not both `'1792'` |
| `OpenAI.DimensionExamples` | br/imagen/backends/openai.py:66-73 | 1024×1792 and 1792×1024 pass for `dall-e-3`, 1792×1792 does not; `dall-e-2` takes 1024×1024 but not 1024×1792 |
| `OpenAI.IntegerSideNeverValid` | br/imagen/backends/openai.py:66-71 | an integer width or height is never accepted, by either model |
| `OpenAI.GenerationParamsFacts` | br/imagen/backends/openai.py:31-57 | the stored schema has exactly the five keys, every one a well-formed combo box; width and height offer `all_dims`, the model picker offers `models`, quality offers `standard`/`hd` and style offers `vivid`/`natural` |
| `OpenAI.GenerationParamsLabelsUnique` | br/imagen/backends/openai.py:31-57 | no two parameters share a display name |
| `SdWebUI.WriteOverUnion` | br/imagen/backends/sd_webui.py:109-123 | a write that may or may not happen after merging `{**kwargs, ...}` equals merging with the written entries |
| `SdWebUI.FixedFields` | br/imagen/backends/sd_webui.py:111-114 | the always-written entries are exactly `prompt`, `width`, `height` and `override_settings`, none of them one of the four optional keys |
| `SdWebUI.Endpoint` | br/imagen/backends/sd_webui.py:13 | the endpoint is `http://`, the host, `:`, a numeral that `int()` reads back as the port, and `/sdapi/v1` |
| `SdWebUI.BackendSchema` | br/imagen/backends/sd_webui.py:14-49 | exactly the six keys; the schema is well-formed; model, sampler and scheduler are combo boxes offering the given lists; width and height are integer fields over 256..2048 starting at 1024, and steps over 1..100 starting at 30 |
| `SdWebUI.SdWebUIBackend.constructor` | br/imagen/backends/sd_webui.py:9-49 | the backend keeps host, port, the endpoint `http://host:port/sdapi/v1` and the schema over one snapshot of the server's lists |
| `SdWebUI.SdWebUIBackend.GetDimRange` | br/imagen/backends/sd_webui.py:51-56 | an unknown name raises `Unknown Dimension Name`; on success, `x` is in the range exactly when `min_value <= x <= max_value`; a well-formed integer parameter always has a range |
| `SdWebUI.SdWebUIBackend.IsValidImgDims` | br/imagen/backends/sd_webui.py:58-64 | a size is valid exactly when `int(width)` and `int(height)` both exist and each lies in 256..2048, checked independently; a failed conversion gives `False` |
| `SdWebUI.SdWebUIBackend.StepsInRange` | br/imagen/backends/sd_webui.py:118-119 | `steps in range(1, 101)` holds exactly for an integer from 1 to 100 |
| `SdWebUI.SdWebUIBackend.OptionalFields` | br/imagen/backends/sd_webui.py:116-123 | only the four optional keys; `negative_prompt` exactly for a truthy negative prompt, `steps` exactly for an integer in 1..100, `sampler_name` and `scheduler` exactly for listed values, each with the caller's value |
| `SdWebUI.SdWebUIBackend.RequestFields` | br/imagen/backends/sd_webui.py:109-123 | the request always has `prompt`, `width`, `height` and `override_settings` with the given values and has no key outside these eight request keys; `negative_prompt` is present exactly for a truthy negative prompt, `steps` exactly for an integer in 1..100, `sampler_name` and `scheduler` exactly for listed values |
| `SdWebUI.SdWebUIBackend.GenerateImage` | br/imagen/backends/sd_webui.py:93-123 | an unknown model fails first, then an invalid size; on success both sides convert with `int()` and the payload is the caller's extras overwritten by the request fields |
| `SdWebUI.RequestFixedEntries` | br/imagen/backends/sd_webui.py:109-115 | `prompt`, `width = int(width)`, `height = int(height)` and `override_settings.sd_model_checkpoint` always hold, whatever the extras say |
| `SdWebUI.RequestOptionalEntries` | br/imagen/backends/sd_webui.py:116-123 | `negative_prompt` is added exactly for a truthy negative prompt, `steps` exactly for an integer in 1..100, and `sampler_name` and `scheduler` exactly for listed values; a key that is not added is present exactly when the extras have it, with their value |
| `SdWebUI.RequestPassesOtherArguments` | br/imagen/backends/sd_webui.py:109-110 | every other extra keyword argument reaches the payload unchanged, and the payload has no other keys |
| `SdWebUI.DimRanges` | br/imagen/backends/sd_webui.py:51-56 | width and height range over 256..2048 and steps over 1..100; the model, sampler and scheduler combo boxes have no `min_value`, so asking for their range raises `KeyError` |
| `SdWebUI.UnconvertibleSideInvalid` | br/imagen/backends/sd_webui.py:59-63 | a side that `int()` cannot convert gives `False`, not an exception |
| `SdWebUI.DimensionExamples` | br/imagen/backends/sd_webui.py:58-64 | 512×2048 and `'768'`×1024 pass; 255 on one side, `'abc'` or `None` do not |
| `SdWebUI.GenerationParamsFacts` | br/imagen/backends/sd_webui.py:14-49 | six parameters, all well-formed (`min_value <= init_value <= max_value` for every integer field); model, sampler and scheduler are combo boxes offering the server's lists, and width, height and steps are integer fields |
| `SdWebUI.GenerationParamsLabelsUnique` | br/imagen/backends/sd_webui.py:14-49 | no two parameters share a display name |
| `SdWebUI.DefaultEndpoint` | br/imagen/backends/sd_webui.py:9-13 | the default endpoint is `http://127.0.0.1:7860/sdapi/v1` |
| `Backends.Models` | br/imagen/backends/base.py:34-35 | the hosted backend lists exactly its catalogue's names; the local one lists the server's models (the concrete classes spell this `models`, see br/imagen/backends/openai.py:79-81) |
| `Backends.GenerationParams` | br/imagen/backends/base.py:18-20 | every backend's schema is well-formed, has distinct labels, offers model, width and height, and its model picker lists exactly the backend's models |
| `Backends.Binds` | br/imagen/backends/base.py:22-31 | extra keyword arguments bind to the hosted backend exactly when they are among `quality` and `style`, and to the local one exactly when none repeats a parameter that is already bound |
| `Backends.Passthrough` | br/imagen/backends/sd_webui.py:103 | the forwarded `**kwargs` and the local backend's own keyword parameters (`steps`, `sampler`, `scheduler`) partition the caller's keyword arguments, and every forwarded value is the caller's |
| `Backends.GenerateImage` | br/imagen/backends/base.py:22-32 | extras that do not bind fail first, then an unknown model, then an invalid size; success holds exactly when all three checks pass; the hosted payload never carries a negative prompt, while the local payload keeps the prompt and carries `negative_prompt` exactly when one is given or passed through |
| `Backends.LocalRequestFacts` | br/imagen/backends/sd_webui.py:109-117 | the local payload keeps the prompt and carries `negative_prompt` exactly for a truthy negative prompt or a passed-through one |
| `Backends.HostedDefaultsAreLegal` | br/imagen/backends/openai.py:94-112 | the default quality and style are legal options, so a plain hosted request includes both |
| `FontFamily.NextSemi` | br/ui/utils.py:31 | the index of the first `;` at or after a position, or the end of the string |
| `FontFamily.Lookbehind` | br/ui/utils.py:31 | the lookbehind `(?<=;|"|\s)`: the character is `;`, `"` or white space |
| `FontFamily.MatchAt` | br/ui/utils.py:31 | a match starts at `i` exactly when `font-family` occurs there and the character before it passes the lookbehind; nothing matches at index 0 |
| `FontFamily.MatchEnd` | br/ui/utils.py:31 | a match runs at least to the end of `font-family` and at most to the end of the string; when it stops before the end of the string it has just taken a `;` |
| `FontFamily.MatchEndIsFirstSemicolon` | br/ui/utils.py:31 | `[^;]*(;)?` stops at the first `;`: no `;` lies between the needle and the end of the match, and with no `;` after the needle the match runs to the end of the string |
| `FontFamily.Scan` | br/ui/utils.py:31 | the left-to-right substitution never lengthens the string |
| `FontFamily.KeptFrom` | br/ui/utils.py:31 | the reference result: the characters from a position on that lie in no match span, in their original order |
| `FontFamily.ScanKeeps` | br/ui/utils.py:31 | where no match starts, the substitution copies the character and goes on |
| `FontFamily.CopiedRun` | br/ui/utils.py:31 | over a stretch where no match starts, the substitution copies the text unchanged |
| `FontFamily.NestedMatchEnd` | br/ui/utils.py:31 | a `font-family` inside an earlier match's span would end where that span ends |
| `FontFamily.ScanMatchesReference` | br/ui/utils.py:31 | from any point that no earlier span covers, the scan keeps exactly the characters that lie in no match span, in order |
| `FontFamily.SpanRemoved` | br/ui/utils.py:31 | every character from the start of a match to its end lies in a removed span |
| `FontFamily.SkipSpan` | br/ui/utils.py:31 | skipping characters that all lie in spans does not change what is kept |
| `FontFamily.UnmatchedNeedleKept` | br/ui/utils.py:31 | a `font-family` at index 0, or after a character other than `;`, `"` and white space, is copied whole when the scan reaches it |
| `FontFamily.NoNeedleUnchanged` | br/ui/utils.py:31 | a string without `font-family` is unchanged |
| `FontFamily.RemovesClosedDeclaration` | br/ui/utils.py:31 | for a text `pre` ending in `;`, `"` or white space and with no `f` in `pre` or `post`, and a declaration without `;`: `pre + 'font-family' + decl + ';' + post` becomes `pre + post` |
| `FontFamily.RemovesOpenDeclaration` | br/ui/utils.py:31 | for such a `pre` and a declaration without `;`, `pre + 'font-family' + decl` becomes `pre`: the span runs to the end of the string |
| `FontFamily.MatchAfterLookbehind` | br/ui/utils.py:31 | `font-family` right after `;`, `"` or white space starts a match |
| `FontFamily.CopiedWithoutF` | br/ui/utils.py:31 | where no `f` occurs, the scan copies straight through |
| `UiUtils.IllustrationCaptionDefaultsToAbsent` | br/ui/utils.py:9-12 | an `Illustration` carries its image data and block number, and its caption defaults to absent |
| `UiUtils.SlicePrefix` | br/ui/utils.py:35 | Python's `s[:k]` is a prefix of `s` whose length is `k` clamped to `0..len(s)`, a negative `k` counting from the end |
| `UiUtils.TruncateStr` | br/ui/utils.py:34-35 | a string within `l` is unchanged; a longer one, when `l >= len(t)`, has length exactly `l`, keeps its first `l - len(t)` characters and ends with `t`; when `l < len(t)` the negative slice applies |
| `UiUtils.TruncateStrFits` | br/ui/utils.py:34-35 | once the marker fits, a truncated caption is never longer than `l` |
| `UiUtils.TruncateStrIdempotent` | br/ui/utils.py:34-35 | truncating twice equals truncating once when `l >= len(t)` |
| `UiUtils.TruncateStrDefaults` | br/ui/utils.py:34 | with the defaults (79, `'...'`) a long caption becomes 79 characters ending in `...` |
| `UiUtils.ScaleToLargest` | br/ui/utils.py:38-43 | when `w > h` the width becomes the bound, otherwise the height does |
| `UiUtils.ScaleToLargestFloor` | br/ui/utils.py:38-43 | for non-negative sizes the other side is `floor(other * bound / larger)` |
| `UiUtils.FloorBracket` | br/ui/utils.py:43 | the floor of a non-negative quotient brackets the exact quotient |
| `UiUtils.ScaleToLargestSquare` | br/ui/utils.py:38-43 | a square becomes bound × bound |
| `UiUtils.ScaleToLargestExamples` | br/ui/utils.py:38-43 | 2000×1000 and 100×50 with bound 768 both give 768×384, going down and going up; 300×600 with 1024 gives 512×1024 |
| `UiUtils.RemoveFontFamily` | br/ui/utils.py:30-31 | the result is exactly the characters outside every match span, in order, never longer than the input, and the input itself when it has no `font-family` |
| `UiUtils.LeadingFontFamilyKept` | br/ui/utils.py:31 | a `font-family` at index 0 is kept, because the lookbehind has no character to look at |
| `UiUtils.LeadingFontFamilyExample` | br/ui/utils.py:31 | `'font-family:x'` is returned unchanged |
| `UiUtils.RemoveFontFamilyAfterSemicolon` | br/ui/utils.py:31 | `'a;font-family:x;b'` becomes `'a;b'`; the closing `;` goes with the span |
| `UiUtils.RemoveFontFamilyAcrossLines` | br/ui/utils.py:31 | a span crosses line breaks up to the next `;` |
| `UiUtils.RemoveFontFamilyRunsPastQuote` | br/ui/utils.py:31 | in an inline style whose last declaration has no `;`, the span takes the closing quote, the markup and the text up to the next `;` |
| `UiUtils.RemoveFontFamilyToEnd` | br/ui/utils.py:31 | with no `;` after it, a span runs to the end of the string |
| `BookUtils.RemoveFontFamily` | br/book_utils.py:23-24 | computes the same function as the UI helpers' copy (br/ui/utils.py:30-31), with the same reference, length bound and no-match behaviour |
| `Widgets.LastIndexOf` | br/ui/widgets.py:64 | the index of the last occurrence of a character, or none exactly when it does not occur |
| `Widgets.ScrollTarget` | br/ui/widgets.py:62-67 | no scroll exactly when the URL has no `#`; otherwise the anchor has no `#` and `url == prefix + '#' + anchor` |
| `Widgets.ScrollTargetOfJoin` | br/ui/widgets.py:64 | splitting undoes joining: `prefix + '#' + anchor` scrolls to `anchor` whenever `anchor` has no `#` |
| `Widgets.TrailingHashGivesEmptyAnchor` | br/ui/widgets.py:64-67 | a URL ending in `#` still scrolls, to the empty anchor |
| `Widgets.ScrollTargetExamples` | br/ui/widgets.py:64 | `'chapter2.xhtml#note-3'` gives `'note-3'`, `'a#b#c'` gives `'c'`, and a URL without `#` gives no scroll |

## Left out

- Network and SDK calls are not modelled: the OpenAI client (br/imagen/backends/openai.py:19, 113-116), the `requests` calls (br/imagen/backends/sd_webui.py:78-91, 124-126) and the values they return. Each `generate_image` model stops at the payload it would send.
- The local backend's model, sampler and scheduler lists are a single snapshot, stored when the object is built. The source fetches them again at every access, so they could in principle differ between the checks in one call.
- Python `int()` is modelled as an optional `+` or `-` followed by ASCII digits. Its further leniency is left out: surrounding white space, underscores and non-ASCII digits.
- Other Python value kinds are left out: floats, booleans and lists are not part of `Base.Value`, so `steps in range(...)` is modelled for integer `steps` only.
- Dictionary order is not modelled: schemas and payloads are maps, so the order of the dialog's parameters and of the payload's keys is not captured.
- UiUtils.ScaleToLargest: does not model the float division of br/ui/utils.py:40-43. Exact arithmetic truncated toward zero is used instead, so float-rounding cases such as `49 * (1 / 49)` truncating to 0 diverge. A zero larger side is excluded by a precondition; there the source raises `ZeroDivisionError`.
- FontFamily.MatchEnd: its own contract gives only the bounds and the taken `;`; that the `;` is the first one after the needle is stated separately by FontFamily.MatchEndIsFirstSemicolon, which keeps the many proofs that unfold MatchEnd small.
- FontFamily.RemovesClosedDeclaration: covers only texts without `f` around the declaration, so that no second match can start there; the general case, with any number of matches, is UiUtils.RemoveFontFamily's characterisation by FontFamily.KeptFrom.
- FontFamily.RemovesOpenDeclaration: covers only a `pre` without `f`, for the same reason; the general case is again UiUtils.RemoveFontFamily's characterisation.
- FontFamily.IsSpace: is the fixed set of characters for which Python's `str.isspace` holds. It stands in for `\s`; no Unicode database is consulted.
- The backend contract is a closed datatype over the two backends (`Backends.Backend`), not an open interface.
  - The abstract `list_models` (br/imagen/backends/base.py:34-35) is implemented by neither backend, so the contract uses their `models` property.
  - `supports_neg_prompt` exists only on the hosted backend. The local backend has no such property, so the contract does not include it.
- Backends.GenerateImage: models calls that pass every argument by keyword. The abstract signature in br/imagen/backends/base.py:22-31 orders `neg_prompt` before `width` and `height`, but both concrete signatures order it after them. A positional call that follows the abstract order would bind the negative prompt to `width` and is not modelled.
- Widgets.ScrollTarget: takes the URL's text and does not model `QUrl.url()` normalisation. The Qt scroll itself is represented only by the anchor it would receive.
- Qt windows and widgets are not modelled: `BookReader.load_book`, `_modify_block_format`, `MainWindow` and the command-line parser all do file I/O or drive the Qt UI.
- Threading is not modelled: `Worker` and `WorkerSignals` exist only to run work concurrently.
- The reading-progress percentage in br/__main__.py is float arithmetic and is not modelled.
- `_get_content`, `get_html_content` and `get_css_content` are thin wrappers over the e-book library and are not modelled.
- The `print` of a revised prompt (br/imagen/backends/openai.py:114-115) is console output and is not modelled.
