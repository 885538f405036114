/** `POST /api/demo/images/refine`: checks the refinement prompt and that an
    image was given, answers with three placeholder SVGs without an API key,
    and otherwise loads the source image, asks for prompt variations and
    refines the image once per variation. */
module ImageRefine {
  import opened Js
  import opened JsString
  import opened ImageCommon

  /** `bufferFromBase64(input)`: a `data:image/...` URL is cut at its commas
      and the second piece decoded (nothing when there is none); anything
      else is decoded whole. */
  function BufferFromBase64(input: string): (b: Buffer)
    ensures !StartsWith(input, "data:image/") ==> b == FromBase64(input)
    ensures StartsWith(input, "data:image/") ==> b.FromBase64? && ',' !in b.encoded
  {
    if StartsWith(input, "data:image/") then
      var parts := Split(input, ',');
      FromBase64(if |parts| > 1 then parts[1] else "")
    else FromBase64(input)
  }

  /** For a data URL the decoded text is what lies between the first comma
      and the next one, or the end. */
  lemma DataUrlPayloadIsDecoded(header: string, payload: string, rest: string)
    requires StartsWith(header, "data:image/") && ',' !in header && ',' !in payload
    ensures BufferFromBase64(header + [','] + payload) == FromBase64(payload)
    ensures BufferFromBase64(header + [','] + payload + [','] + rest) == FromBase64(payload)
  {
    assert (header + [','] + payload)[..|"data:image/"|] == header[..|"data:image/"|];
    assert (header + [','] + payload + [','] + rest)[..|"data:image/"|] == header[..|"data:image/"|];
    SplitAtFirstSeparator(header, payload, ',');
    SplitWithoutSeparator(payload, ',');
    SplitAtFirstSeparator(header, payload + [','] + rest, ',');
    SplitAtFirstSeparator(payload, rest, ',');
    assert header + [','] + payload + [','] + rest == header + [','] + (payload + [','] + rest);
  }

  /** A data URL without a comma decodes to nothing. */
  lemma DataUrlWithoutCommaIsEmpty(input: string)
    requires StartsWith(input, "data:image/") && ',' !in input
    ensures BufferFromBase64(input) == FromBase64("")
  {
    SplitWithoutSeparator(input, ',');
  }

  const SVG_HEAD := "<svg xmlns='http://www.w3.org/2000/svg' width='1024' height='576'><rect width='100%' height='100%' fill='#f8fafc'/><rect x='40' y='40' width='944' height='496' rx='20' fill='white' stroke='"
  const SVG_MIDDLE := "' stroke-width='6'/><text x='512' y='250' font-size='32' text-anchor='middle' fill='#0f172a' font-family='Arial, sans-serif'>Refined variation</text><text x='512' y='308' font-size='18' text-anchor='middle' fill='#334155' font-family='Arial, sans-serif'>"
  const SVG_TAIL := "</text></svg>"

  const TEXT_LIMIT: nat := 100

  function Svg(text: string, accent: string): string
  {
    SVG_HEAD + accent + SVG_MIDDLE + SafeText(text, TEXT_LIMIT) + SVG_TAIL
  }

  /** `toDataUrlSvg(text, accent)` */
  function SvgDataUrl(text: string, accent: string): (u: DataUrl)
    ensures u.mediaType == "image/svg+xml" && u.payload.Utf8?
  {
    DataUrl("image/svg+xml", Utf8(Svg(text, accent)))
  }

  /** Whatever the variation, the placeholder has the template's angle
      brackets and no more. */
  lemma VariationCannotAddMarkup(t1: string, t2: string, accent: string)
    ensures Brackets(SvgDataUrl(t1, accent).payload.text) == Brackets(SvgDataUrl(t2, accent).payload.text)
  {
    var before := SVG_HEAD + accent + SVG_MIDDLE;
    SafeTextAddsNoBrackets(before, t1, TEXT_LIMIT, SVG_TAIL);
    SafeTextAddsNoBrackets(before, t2, TEXT_LIMIT, SVG_TAIL);
  }

  datatype RefinedImage = RefinedImage(id: string, url: DataUrl, refinementPrompt: string)

  datatype Response =
    | Images(mode: string, images: seq<RefinedImage>)
    | Error(status: nat, error: string)
    | Unhandled   // an exception outside the try block

  /** What `fetch(image_url)` gives: a throw, or a response with its
      status, whether it is ok, and its body as text or as bytes. */
  datatype FetchResult = FetchThrew | FetchResponse(ok: bool, status: nat, text: string, body: Attempt<seq<bv8>>)

  const PROMPT_REQUIRED := "refinement_prompt is required"
  const IMAGE_REQUIRED := "image_url or image_base64 is required"
  const REFINE_FAILED := "Failed to refine image"
  const FETCH_FAILED := "Failed to fetch source image: "

  const ACCENTS := ["#22c55e", "#0ea5e9", "#f97316"]

  /** The three mock variations of the trimmed prompt. */
  function MockVariations(p: string): (vs: seq<string>)
    ensures |vs| == 3 && vs[0] == p
    ensures vs[1] == p + ", with softer lighting" && vs[2] == p + ", with more texture detail"
    ensures forall i :: 0 <= i < 3 ==> |vs[i]| >= |p| && vs[i][..|p|] == p
  {
    [p, p + ", with softer lighting", p + ", with more texture detail"]
  }

  /** The mock reply's images: the i-th variation drawn with the i-th accent. */
  function MockImages(p: string, uuid: nat -> string): (images: seq<RefinedImage>)
    ensures |images| == 3
    ensures forall i :: 0 <= i < 3 ==>
      images[i] == RefinedImage(uuid(i), SvgDataUrl(MockVariations(p)[i], ACCENTS[i]), MockVariations(p)[i])
  {
    var vs := MockVariations(p);
    seq(3, i requires 0 <= i < 3 => RefinedImage(uuid(i), SvgDataUrl(vs[i], ACCENTS[i]), vs[i]))
  }

  /** `typeof refinement_prompt === 'string' ? refinement_prompt.trim() : ''` */
  function TrimmedPrompt(v: Value): (p: string)
    ensures !v.Str? ==> p == ""
    ensures v.Str? ==> p == Trim(v.s)
  {
    if v.Str? then Trim(v.s) else ""
  }

  /** A prompt is missing exactly when it is not a string or is all white space. */
  lemma PromptMissingIffBlank(v: Value)
    ensures TrimmedPrompt(v) == "" <==> !v.Str? || forall i :: 0 <= i < |v.s| ==> IsWhiteSpace(v.s[i])
  {
    if v.Str? {
      TrimEmptyIffBlank(v.s);
    }
  }

  /** The image to refine: the base64 input when it is truthy, else the
      fetched URL. A base64 input that is not a string throws. */
  function SourceImage(imageBase64: Value, imageUrl: Value, fetch: Value -> FetchResult): (src: Attempt<Buffer>)
    ensures Truthy(imageBase64) ==>
      src == (if imageBase64.Str? then Returned(BufferFromBase64(imageBase64.s)) else Threw)
    ensures !Truthy(imageBase64) ==>
      (src.Returned? <==> fetch(imageUrl).FetchResponse? && fetch(imageUrl).ok && fetch(imageUrl).body.Returned?)
    ensures !Truthy(imageBase64) && src.Returned? ==> src.value == Bytes(fetch(imageUrl).body.value)
  {
    if Truthy(imageBase64) then
      if imageBase64.Str? then Returned(BufferFromBase64(imageBase64.s)) else Threw
    else
      match fetch(imageUrl)
      case FetchThrew => Threw
      case FetchResponse(ok, _, _, body) =>
        if !ok then Threw
        else if body.Threw? then Threw
        else Returned(Bytes(body.value))
  }

  /** `image_base64` wins over `image_url`: with a string base64 input the
      URL is never fetched. */
  lemma Base64WinsOverUrl(b64: string, url1: Value, url2: Value, f1: Value -> FetchResult, f2: Value -> FetchResult)
    requires b64 != ""
    ensures SourceImage(Str(b64), url1, f1) == SourceImage(Str(b64), url2, f2) == Returned(BufferFromBase64(b64))
  {
  }

  /** Every variation was refined without a throw. */
  predicate AllRefined(source: Buffer, variations: seq<string>, refine: (Buffer, string) -> Attempt<Buffer>)
  {
    forall i :: 0 <= i < |variations| ==> refine(source, variations[i]).Returned?
  }

  /** The refined images in variation order, the i-th with the i-th id. */
  function LiveImages(source: Buffer, variations: seq<string>, uuid: nat -> string,
                      refine: (Buffer, string) -> Attempt<Buffer>): (images: seq<RefinedImage>)
    requires AllRefined(source, variations, refine)
    ensures |images| == |variations|
    ensures forall i :: 0 <= i < |images| ==>
      && images[i].id == uuid(i) && images[i].refinementPrompt == variations[i]
      && images[i].url == DataUrl("image/png", refine(source, variations[i]).value)
  {
    seq(|variations|, i requires 0 <= i < |variations| =>
      RefinedImage(uuid(i), DataUrl("image/png", refine(source, variations[i]).value), variations[i]))
  }

  /** The request reaches the live path: a prompt, an image and a key. */
  predicate GoesLive(b: Value, openRouterKey: Option<string>)
  {
    && TrimmedPrompt(Prop(b, "refinement_prompt")) != ""
    && (Truthy(Prop(b, "image_url")) || Truthy(Prop(b, "image_base64")))
    && Present(openRouterKey)
  }

  /** The source image is fetched and the server answers with an error status. */
  predicate FetchRejected(b: Value, fetch: Value -> FetchResult)
  {
    && !Truthy(Prop(b, "image_base64"))
    && fetch(Prop(b, "image_url")).FetchResponse?
    && !fetch(Prop(b, "image_url")).ok
  }

  /** The source image was read, the variations were made and every one of
      them was refined. */
  predicate LiveSucceeds(b: Value, fetch: Value -> FetchResult, vary: string -> Attempt<seq<string>>,
                         refine: (Buffer, string) -> Attempt<Buffer>)
  {
    var source := SourceImage(Prop(b, "image_base64"), Prop(b, "image_url"), fetch);
    var variations := vary(TrimmedPrompt(Prop(b, "refinement_prompt")));
    && source.Returned? && variations.Returned?
    && AllRefined(source.value, variations.value, refine)
  }

  /** The `try` block of the handler, reached with a prompt, an image and a
      key: read the source image, make the variations, refine each one. */
  method RefineLive(b: Value, uuid: nat -> string, fetch: Value -> FetchResult,
                    vary: string -> Attempt<seq<string>>, refine: (Buffer, string) -> Attempt<Buffer>)
    returns (r: Response)
    ensures LiveSucceeds(b, fetch, vary, refine) ==>
      var source := SourceImage(Prop(b, "image_base64"), Prop(b, "image_url"), fetch);
      var variations := vary(TrimmedPrompt(Prop(b, "refinement_prompt")));
      r == Images("live", LiveImages(source.value, variations.value, uuid, refine))
    ensures FetchRejected(b, fetch) ==>
      var response := fetch(Prop(b, "image_url"));
      r == Error(502, FETCH_FAILED + NatToString(response.status) + " " + response.text)
    ensures !LiveSucceeds(b, fetch, vary, refine) && !FetchRejected(b, fetch) ==> r == Error(500, REFINE_FAILED)
  {
    var imageUrl := Prop(b, "image_url");
    var imageBase64 := Prop(b, "image_base64");
    var imageBuffer: Buffer;
    if Truthy(imageBase64) {
      if !imageBase64.Str? {
        // `input.startsWith` is not a function
        return Error(500, REFINE_FAILED);
      }
      imageBuffer := BufferFromBase64(imageBase64.s);
    } else {
      var imageResponse := fetch(imageUrl);
      if imageResponse.FetchThrew? {
        return Error(500, REFINE_FAILED);
      }
      if !imageResponse.ok {
        return Error(502, FETCH_FAILED + NatToString(imageResponse.status) + " " + imageResponse.text);
      }
      if imageResponse.body.Threw? {
        return Error(500, REFINE_FAILED);
      }
      imageBuffer := Bytes(imageResponse.body.value);
    }
    var variations := vary(TrimmedPrompt(Prop(b, "refinement_prompt")));
    if variations.Threw? {
      return Error(500, REFINE_FAILED);
    }
    // `Promise.all` over the refinements: any rejection rejects the whole.
    if !AllRefined(imageBuffer, variations.value, refine) {
      return Error(500, REFINE_FAILED);
    }
    r := Images("live", LiveImages(imageBuffer, variations.value, uuid, refine));
  }

  /** The handler. `uuid(i)` is the i-th id `randomUUID` hands out. */
  method Post(body: Option<Value>, openRouterKey: Option<string>, uuid: nat -> string,
              fetch: Value -> FetchResult, vary: string -> Attempt<seq<string>>,
              refine: (Buffer, string) -> Attempt<Buffer>) returns (r: Response)
    ensures body.None? || body == Some(Null) ==> r == Unhandled
    ensures body.Some? && body.value != Null ==>
      var b := body.value;
      var p := TrimmedPrompt(Prop(b, "refinement_prompt"));
      && (p == "" ==> r == Error(400, PROMPT_REQUIRED))
      && (p != "" && !Truthy(Prop(b, "image_url")) && !Truthy(Prop(b, "image_base64")) ==>
            r == Error(400, IMAGE_REQUIRED))
      && (p != "" && (Truthy(Prop(b, "image_url")) || Truthy(Prop(b, "image_base64"))) && !Present(openRouterKey) ==>
            r == Images("mock", MockImages(p, uuid)))
    ensures body.Some? && body.value != Null && GoesLive(body.value, openRouterKey) ==>
      var b := body.value;
      var source := SourceImage(Prop(b, "image_base64"), Prop(b, "image_url"), fetch);
      var variations := vary(TrimmedPrompt(Prop(b, "refinement_prompt")));
      var response := fetch(Prop(b, "image_url"));
      && (LiveSucceeds(b, fetch, vary, refine) ==>
            r == Images("live", LiveImages(source.value, variations.value, uuid, refine)))
      && (FetchRejected(b, fetch) ==>
            r == Error(502, FETCH_FAILED + NatToString(response.status) + " " + response.text))
      && (!LiveSucceeds(b, fetch, vary, refine) && !FetchRejected(b, fetch) ==> r == Error(500, REFINE_FAILED))
    ensures r.Images? && r.mode == "live" ==>
      body.Some? && GoesLive(body.value, openRouterKey) && LiveSucceeds(body.value, fetch, vary, refine)
    ensures r.Error? ==> r.status in {400, 500, 502}
    ensures r.Error? && r.status == 502 ==> body.Some? && FetchRejected(body.value, fetch)
  {
    if body.None? || body.value == Null {
      return Unhandled;
    }
    var b := body.value;
    var trimmedPrompt := TrimmedPrompt(Prop(b, "refinement_prompt"));
    if trimmedPrompt == "" {
      return Error(400, PROMPT_REQUIRED);
    }
    if !Truthy(Prop(b, "image_url")) && !Truthy(Prop(b, "image_base64")) {
      return Error(400, IMAGE_REQUIRED);
    }
    if !Present(openRouterKey) {
      return Images("mock", MockImages(trimmedPrompt, uuid));
    }
    r := RefineLive(b, uuid, fetch, vary, refine);
  }
}
