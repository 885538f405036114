/** `POST /api/demo/images/generate`: takes the prompt as given, or renders
    the prompt template over the source text, and answers with a
    placeholder SVG without an API key or with the generated PNG. */
module ImageGenerate {
  import opened Js
  import opened ImageCommon

  const SVG_HEAD := "<svg xmlns='http://www.w3.org/2000/svg' width='1024' height='576'><rect width='100%' height='100%' fill='#f8fafc'/><rect x='48' y='48' width='928' height='480' rx='24' fill='white' stroke='"
  const SVG_MIDDLE := "' stroke-width='6'/><text x='512' y='260' font-size='34' text-anchor='middle' fill='#0f172a' font-family='Arial, sans-serif'>Demo image</text><text x='512' y='318' font-size='20' text-anchor='middle' fill='#334155' font-family='Arial, sans-serif'>"
  const SVG_TAIL := "</text></svg>"

  const TEXT_LIMIT: nat := 120
  const MOCK_ACCENT := "#6366f1"
  const PROMPT_REQUIRED := "prompt or prompt_template + source_text is required"
  const GENERATION_FAILED := "Failed to generate image"

  /** The placeholder picture: the prompt's safe text in a card. */
  function Svg(text: string, accent: string): string
  {
    SVG_HEAD + accent + SVG_MIDDLE + SafeText(text, TEXT_LIMIT) + SVG_TAIL
  }

  /** `toDataUrlSvg(text, accent)` */
  function SvgDataUrl(text: string, accent: string): (u: DataUrl)
    ensures u.mediaType == "image/svg+xml" && u.payload.Utf8?
  {
    DataUrl("image/svg+xml", Utf8(Svg(text, accent)))
  }

  /** Whatever the prompt, the placeholder has the template's angle brackets
      and no more: the prompt cannot add markup. */
  lemma PromptCannotAddMarkup(t1: string, t2: string, accent: string)
    ensures Brackets(SvgDataUrl(t1, accent).payload.text) == Brackets(SvgDataUrl(t2, accent).payload.text)
  {
    var before := SVG_HEAD + accent + SVG_MIDDLE;
    SafeTextAddsNoBrackets(before, t1, TEXT_LIMIT, SVG_TAIL);
    SafeTextAddsNoBrackets(before, t2, TEXT_LIMIT, SVG_TAIL);
  }

  datatype Response =
    | Image(url: DataUrl, mode: string)
    | Error(status: nat, error: string)
    | Unhandled   // an exception outside the try block

  /** `let finalPrompt = prompt`, replaced by the rendered template only
      when the prompt is falsy and both template inputs are truthy. */
  function FinalPrompt(body: Value, render: (Value, Value) -> Attempt<Value>): (p: Attempt<Value>)
    ensures Truthy(Prop(body, "prompt")) ==> p == Returned(Prop(body, "prompt"))
    ensures !Truthy(Prop(body, "prompt")) && !(Truthy(Prop(body, "source_text")) && Truthy(Prop(body, "prompt_template")))
      ==> p == Returned(Prop(body, "prompt"))
    ensures !Truthy(Prop(body, "prompt")) && Truthy(Prop(body, "source_text")) && Truthy(Prop(body, "prompt_template"))
      ==> p == render(Prop(body, "prompt_template"), Prop(body, "source_text"))
  {
    var prompt := Prop(body, "prompt");
    if !Truthy(prompt) && Truthy(Prop(body, "source_text")) && Truthy(Prop(body, "prompt_template")) then
      render(Prop(body, "prompt_template"), Prop(body, "source_text"))
    else Returned(prompt)
  }

  /** The handler. `body` is None when the request body is not JSON. */
  method Post(body: Option<Value>, openRouterKey: Option<string>, render: (Value, Value) -> Attempt<Value>,
              generate: Value -> Attempt<Buffer>) returns (r: Response)
    ensures body.None? || body == Some(Null) ==> r == Unhandled
    ensures body.Some? && body.value != Null && FinalPrompt(body.value, render).Returned? ==>
      var p := FinalPrompt(body.value, render).value;
      && (!Truthy(p) ==> r == Error(400, PROMPT_REQUIRED))
      && (Truthy(p) && !Present(openRouterKey) ==>
            r == (if p.Str? then Image(SvgDataUrl(p.s, MOCK_ACCENT), "mock") else Unhandled))
      && (Truthy(p) && Present(openRouterKey) ==>
            r == (match generate(p)
                  case Returned(png) => Image(DataUrl("image/png", png), "live")
                  case Threw => Error(500, GENERATION_FAILED)))
    ensures body.Some? && body.value != Null && FinalPrompt(body.value, render).Threw? ==> r == Unhandled
  {
    if body.None? || body.value == Null {
      return Unhandled;
    }
    var finalPrompt := Prop(body.value, "prompt");
    if !Truthy(finalPrompt) && Truthy(Prop(body.value, "source_text")) && Truthy(Prop(body.value, "prompt_template")) {
      var rendered := render(Prop(body.value, "prompt_template"), Prop(body.value, "source_text"));
      if rendered.Threw? {
        return Unhandled;
      }
      finalPrompt := rendered.value;
    }
    if !Truthy(finalPrompt) {
      return Error(400, PROMPT_REQUIRED);
    }
    if !Present(openRouterKey) {
      if !finalPrompt.Str? {
        // `text.slice(0, 120).replace(...)` throws on anything but a string
        return Unhandled;
      }
      return Image(SvgDataUrl(finalPrompt.s, MOCK_ACCENT), "mock");
    }
    var generated := generate(finalPrompt);
    if generated.Threw? {
      return Error(500, GENERATION_FAILED);
    }
    r := Image(DataUrl("image/png", generated.value), "live");
  }

  /** A truthy prompt is used verbatim: the template is not rendered. */
  lemma TruthyPromptWins(body: Value, render1: (Value, Value) -> Attempt<Value>,
                         render2: (Value, Value) -> Attempt<Value>)
    requires Truthy(Prop(body, "prompt"))
    ensures FinalPrompt(body, render1) == FinalPrompt(body, render2) == Returned(Prop(body, "prompt"))
  {
  }
}
