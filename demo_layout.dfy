/** The header of every page under `/demo`: its title comes from the second
    path component, looked up in a table of recipe names. The table must
    agree with the recipe cards on the `/demo` index page. */
module DemoLayout {
  import opened JsString

  const RECIPE_LABELS: map<string, string> := map[
    "prompt-transparency" := "Prompt Transparency",
    "thumbs-feedback" := "Thumbs Feedback",
    "changelog" := "Changelog",
    "image-refinement" := "Image Refinement",
    "canvas" := "ReactFlow Canvas",
    "tts" := "STT + TTS",
    "multi-llm" := "Multi-LLM Orchestration",
    "feedback-review" := "Feedback Review CLI"]

  const INDEX_TITLE := "Recipe Demos"

  /** `pathname.split('/')[2] || ''`: the component after `/demo/`. */
  function Segment(pathname: string): (seg: string)
    ensures '/' !in seg
    ensures |Split(pathname, '/')| <= 2 ==> seg == ""
  {
    var parts := Split(pathname, '/');
    if |parts| > 2 then parts[2] else ""
  }

  /** The title over the page: the index title without a segment, the
      recipe's label for a known one, the segment itself otherwise. */
  function Title(pathname: string): (t: string)
    ensures t == SegmentTitle(Segment(pathname))
    ensures t != ""
  {
    LabelsAreNonEmpty();
    var seg := Segment(pathname);
    if seg == "" then INDEX_TITLE
    else if seg in RECIPE_LABELS && RECIPE_LABELS[seg] != "" then RECIPE_LABELS[seg]
    else seg
  }

  /** What a segment shows, stated without the path. */
  function SegmentTitle(seg: string): string
  {
    if seg == "" then INDEX_TITLE else if seg in RECIPE_LABELS then RECIPE_LABELS[seg] else seg
  }

  /** Every label is non-empty, so `RECIPE_LABELS[segment] || segment` only
      falls back to the segment when it is not in the table. */
  lemma LabelsAreNonEmpty()
    ensures forall k :: k in RECIPE_LABELS ==> RECIPE_LABELS[k] != ""
  {
  }

  /** `/demo/<slug>` is titled by `slug`. */
  lemma {:induction false} TitleOfDemoPath(slug: string)
    requires '/' !in slug
    ensures Title("/demo/" + slug) == SegmentTitle(slug)
  {
    LabelsAreNonEmpty();
    SplitWithoutSeparator(slug, '/');
    SplitAtFirstSeparator("demo", slug, '/');
    SplitAtFirstSeparator("", "demo" + ['/'] + slug, '/');
    assert "/demo/" + slug == "" + ['/'] + ("demo" + ['/'] + slug);
  }

  /** Any path below `/demo/<slug>` is titled by `slug` alone, so
      `/demo/tts/x` shows "STT + TTS". */
  lemma {:induction false} TitleOfDeeperPath(slug: string, rest: string)
    requires '/' !in slug
    ensures Title("/demo/" + slug + "/" + rest) == SegmentTitle(slug)
  {
    LabelsAreNonEmpty();
    SplitAtFirstSeparator(slug, rest, '/');
    SplitAtFirstSeparator("demo", slug + ['/'] + rest, '/');
    SplitAtFirstSeparator("", "demo" + ['/'] + (slug + ['/'] + rest), '/');
    assert "/demo/" + slug + "/" + rest == "" + ['/'] + ("demo" + ['/'] + (slug + ['/'] + rest));
  }

  /** The index page itself carries the index title. */
  lemma IndexTitle()
    ensures Title("/demo") == INDEX_TITLE
  {
    SplitWithoutSeparator("demo", '/');
    SplitAtFirstSeparator("", "demo", '/');
    assert "/demo" == "" + ['/'] + "demo";
  }

  /** So does the index page with a trailing slash. */
  lemma IndexWithSlashTitle()
    ensures Title("/demo/") == INDEX_TITLE
  {
    TitleOfDemoPath("");
    assert "/demo/" + "" == "/demo/";
  }

  /** A card on the index page (its description is display text only). */
  datatype Recipe = Recipe(slug: string, title: string)

  const RECIPES := [
    Recipe("prompt-transparency", "Prompt Transparency"),
    Recipe("thumbs-feedback", "Thumbs Feedback"),
    Recipe("changelog", "Changelog"),
    Recipe("image-refinement", "Image Refinement"),
    Recipe("canvas", "ReactFlow Canvas"),
    Recipe("tts", "STT + TTS"),
    Recipe("multi-llm", "Multi-LLM Orchestration"),
    Recipe("feedback-review", "Feedback Review CLI")]

  /** The `/demo/${slug}` link of a card. */
  function Link(r: Recipe): string
  {
    "/demo/" + r.slug
  }

  /** None of the slugs contains a slash. */
  lemma SlugsWithoutSlash()
    ensures '/' !in "prompt-transparency"
    ensures '/' !in "thumbs-feedback"
    ensures '/' !in "changelog"
    ensures '/' !in "image-refinement"
    ensures '/' !in "canvas"
    ensures '/' !in "tts"
    ensures '/' !in "multi-llm"
    ensures '/' !in "feedback-review"
  {
  }

  /** The i-th card's slug is a table key whose label is the card's title. */
  lemma RecipeAgreesWithLabel(i: nat)
    requires i < |RECIPES|
    ensures '/' !in RECIPES[i].slug
    ensures RECIPES[i].slug in RECIPE_LABELS && RECIPE_LABELS[RECIPES[i].slug] == RECIPES[i].title
  {
    SlugsWithoutSlash();
    if i == 0 { assert RECIPES[i] == Recipe("prompt-transparency", "Prompt Transparency"); }
    else if i == 1 { assert RECIPES[i] == Recipe("thumbs-feedback", "Thumbs Feedback"); }
    else if i == 2 { assert RECIPES[i] == Recipe("changelog", "Changelog"); }
    else if i == 3 { assert RECIPES[i] == Recipe("image-refinement", "Image Refinement"); }
    else if i == 4 { assert RECIPES[i] == Recipe("canvas", "ReactFlow Canvas"); }
    else if i == 5 { assert RECIPES[i] == Recipe("tts", "STT + TTS"); }
    else if i == 6 { assert RECIPES[i] == Recipe("multi-llm", "Multi-LLM Orchestration"); }
    else { assert RECIPES[i] == Recipe("feedback-review", "Feedback Review CLI"); }
  }

  /** Following any card's link shows that card's title in the header. */
  lemma EveryRecipeLinkShowsItsTitle(i: nat)
    requires i < |RECIPES|
    ensures Title(Link(RECIPES[i])) == RECIPES[i].title
  {
    RecipeAgreesWithLabel(i);
    TitleOfDemoPath(RECIPES[i].slug);
  }
}
