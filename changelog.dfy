/** The changelog page, in its two shipped variants: the app's own page
    (four entries before "See more updates") and the recipe copy (five).
    Both sort a copy of `UPDATES` by `publishedAt`, label term kinds the
    same three ways, show a prefix of the sorted list and offer a toggle. */
module Changelog {
  import opened Js
  import opened JsString
  import ArraySort

  datatype ChangeTermKind = Internal | Tool | Practice

  datatype ChangeTerm = ChangeTerm(
    key: string,
    labelText: string,
    description: string,
    kind: ChangeTermKind,
    note: Option<string>)

  datatype ChangeEntry = ChangeEntry(
    id: string,
    title: string,
    summary: string,
    devNote: Option<string>,
    publishedAt: string,
    tags: Option<seq<string>>,
    terms: Option<seq<ChangeTerm>>)

  datatype SortOrder = Desc | Asc

  /** The comparator handed to `sort`: newer first for Desc, older first for Asc. */
  function Comparator(order: SortOrder): (cmp: (ChangeEntry, ChangeEntry) -> int)
    ensures forall a, b :: cmp(a, b) == 0 <==> a.publishedAt == b.publishedAt
    ensures order == Asc ==> forall a, b :: cmp(a, b) == LocaleCompare(a.publishedAt, b.publishedAt)
    ensures order == Desc ==> forall a, b :: cmp(a, b) == -LocaleCompare(a.publishedAt, b.publishedAt)
  {
    forall a: ChangeEntry, b: ChangeEntry ensures LocaleCompare(b.publishedAt, a.publishedAt) == -LocaleCompare(a.publishedAt, b.publishedAt) {
      LocaleCompareAntisymmetric(b.publishedAt, a.publishedAt);
    }
    (a: ChangeEntry, b: ChangeEntry) =>
      if order == Desc then LocaleCompare(b.publishedAt, a.publishedAt)
      else LocaleCompare(a.publishedAt, b.publishedAt)
  }

  lemma ComparatorConsistent(order: SortOrder)
    ensures ArraySort.Consistent(Comparator(order))
  {
    var cmp := Comparator(order);
    forall a, b ensures cmp(a, b) <= 0 || cmp(b, a) <= 0 {
      LocaleCompareAntisymmetric(a.publishedAt, b.publishedAt);
    }
    forall a, b, c | cmp(a, b) <= 0 && cmp(b, c) <= 0 ensures cmp(a, c) <= 0 {
      if order == Desc {
        LocaleCompareTransitive(c.publishedAt, b.publishedAt, a.publishedAt);
      } else {
        LocaleCompareTransitive(a.publishedAt, b.publishedAt, c.publishedAt);
      }
    }
  }

  /** `sortUpdates`: a reordering of the entries (the argument is copied
      first, so the caller's list is not touched), newest first for Desc and
      oldest first for Asc. */
  function SortUpdates(updates: seq<ChangeEntry>, order: SortOrder): (r: seq<ChangeEntry>)
    ensures multiset(r) == multiset(updates)
    ensures order == Desc ==>
      forall i, j :: 0 <= i < j < |r| ==> LocaleCompare(r[j].publishedAt, r[i].publishedAt) <= 0
    ensures order == Asc ==>
      forall i, j :: 0 <= i < j < |r| ==> LocaleCompare(r[i].publishedAt, r[j].publishedAt) <= 0
  {
    ComparatorConsistent(order);
    ArraySort.SortWithSorted(updates, Comparator(order));
    ArraySort.SortWith(updates, Comparator(order))
  }

  /** A list already in the requested order is returned as it is. */
  lemma SortUpdatesKeepsOrderedList(updates: seq<ChangeEntry>, order: SortOrder)
    requires forall i, j :: 0 <= i < j < |updates| ==> Comparator(order)(updates[i], updates[j]) <= 0
    ensures SortUpdates(updates, order) == updates
  {
    ArraySort.SortWithOrderedInput(updates, Comparator(order));
  }

  function KindLabel(kind: ChangeTermKind): (s: string)
    ensures s == "Internal" <==> kind == Internal
    ensures s == "Tool" <==> kind == Tool
    ensures s == "Practice" <==> kind == Practice
  {
    match kind
    case Internal => "Internal"
    case Tool => "Tool"
    case Practice => "Practice"
  }

  /** The badge classes: emerald for internal terms, sky for tools, amber
      for practices. */
  function KindStyles(kind: ChangeTermKind): (s: string)
    ensures s == "border-emerald-200 bg-emerald-50 text-emerald-800" <==> kind == Internal
    ensures s == "border-sky-200 bg-sky-50 text-sky-800" <==> kind == Tool
    ensures s == "border-amber-200 bg-amber-50 text-amber-800" <==> kind == Practice
  {
    match kind
    case Internal => "border-emerald-200 bg-emerald-50 text-emerald-800"
    case Tool => "border-sky-200 bg-sky-50 text-sky-800"
    case Practice => "border-amber-200 bg-amber-50 text-amber-800"
  }

  /** Label and style split the kinds the same three ways: two kinds share a
      label exactly when they share a style, and exactly when they are the
      same kind. */
  lemma KindLabelAndStylesAgree(a: ChangeTermKind, b: ChangeTermKind)
    ensures KindLabel(a) == KindLabel(b) <==> a == b
    ensures KindStyles(a) == KindStyles(b) <==> a == b
  {
    if a != b {
      assert KindLabel(a)[0] != KindLabel(b)[0];
      assert |KindStyles(a)| != |KindStyles(b)|;
    }
  }

  /** The page's view state: the chosen order and whether every entry is shown. */
  datatype View = View(order: SortOrder, showAll: bool)

  const INITIAL_VIEW := View(Desc, false)

  /** The entries a page shows: all of them, or the first `pageSize`. */
  function Visible(sorted: seq<ChangeEntry>, showAll: bool, pageSize: nat): (r: seq<ChangeEntry>)
    ensures r <= sorted
    ensures |r| == if showAll || |sorted| <= pageSize then |sorted| else pageSize
  {
    if showAll then sorted else Take(sorted, pageSize)
  }

  /** The "See more updates" / "Show fewer updates" button is rendered. */
  predicate ShowsToggle(sorted: seq<ChangeEntry>, pageSize: nat)
  {
    |sorted| > pageSize
  }

  /** The toggle is rendered exactly when the collapsed page hides an entry. */
  lemma ToggleExactlyWhenEntriesHidden(sorted: seq<ChangeEntry>, pageSize: nat)
    ensures ShowsToggle(sorted, pageSize) <==> Visible(sorted, false, pageSize) != sorted
  {
  }

  /** The button's handler, `setShowAll(prev => !prev)`. */
  function ToggleShowAll(v: View): (r: View)
    ensures r.order == v.order && r.showAll != v.showAll
  {
    v.(showAll := !v.showAll)
  }

  /** The "Latest first" / "Oldest first" buttons. */
  function SelectOrder(v: View, order: SortOrder): (r: View)
    ensures r.order == order && r.showAll == v.showAll
  {
    v.(order := order)
  }

  lemma ToggleTwiceRestores(v: View)
    ensures ToggleShowAll(ToggleShowAll(v)) == v
  {
  }

  /** What one render of a page holds. */
  datatype Page = Page(visible: seq<ChangeEntry>, toggle: Option<string>)

  function ToggleLabel(showAll: bool): string
  {
    if showAll then "Show fewer updates" else "See more updates"
  }

  /** One render of a page with `pageSize` entries collapsed. */
  function Render(updates: seq<ChangeEntry>, v: View, pageSize: nat): (p: Page)
    ensures p.visible <= SortUpdates(updates, v.order)
    ensures |p.visible| == if v.showAll || |updates| <= pageSize then |updates| else pageSize
    ensures p.toggle.Some? <==> |updates| > pageSize
  {
    var sorted := SortUpdates(updates, v.order);
    assert |sorted| == |multiset(sorted)| == |updates|;
    Page(Visible(sorted, v.showAll, pageSize),
         if ShowsToggle(sorted, pageSize) then Some(ToggleLabel(v.showAll)) else None)
  }

  // ---- The app's page (src/components/recipes/changelog) ----

  const APP_PAGE_SIZE: nat := 4

  function AppPage(v: View): Page
  {
    Render(APP_UPDATES, v, APP_PAGE_SIZE)
  }

  const APP_UPDATES: seq<ChangeEntry> := [
    ChangeEntry(
      "2026-02-11-demo-recipes",
      "Added recipe demos under /demo",
      "You can now preview all template recipes in one place without creating an account.",
      Some("Each demo has isolated routes under /api/demo to avoid touching production app behavior."),
      "2026-02-11",
      Some(["Demo", "UX"]),
      Some([ChangeTerm("isolated-routes", "Isolated routes",
        "Separate endpoints used only by demos, so app endpoints stay focused on core product flows.",
        Practice, None)])),
    ChangeEntry(
      "2026-02-07-tts-fallback",
      "Speech demo now degrades to browser APIs",
      "Voice demos keep working when API keys are missing by using built-in browser speech capabilities.",
      Some("TTS falls back to speechSynthesis and STT can rely on SpeechRecognition when available."),
      "2026-02-07",
      Some(["Audio", "Reliability"]),
      Some([ChangeTerm("speechsynthesis", "SpeechSynthesis",
        "A browser API that reads text aloud using local/device voices.",
        Tool, None)])),
    ChangeEntry(
      "2026-01-29-canvas-demo",
      "Canvas recipe supports in-memory graph storage",
      "The canvas demo ships with editable nodes and edges that work immediately in local development.",
      Some("Node/edge CRUD routes use process memory in demo mode to minimize setup friction."),
      "2026-01-29",
      Some(["Canvas", "DX"]),
      Some([ChangeTerm("in-memory", "In-memory store",
        "Data lives only while the dev server is running and resets when restarted.",
        Practice, None)])),
    ChangeEntry(
      "2026-01-21-feedback-loop",
      "Thumbs feedback flow includes role + comment capture",
      "Negative feedback can now ask who the user is and capture a short explanation.",
      Some("Role preference is stored in localStorage so users do not need to re-select every time."),
      "2026-01-21",
      Some(["Feedback"]),
      Some([ChangeTerm("local-storage", "localStorage",
        "Small key-value browser storage used for lightweight client preferences.",
        Tool, None)])),
    ChangeEntry(
      "2026-01-12-prompt-visibility",
      "Prompt transparency dialog added to chat responses",
      "Users can inspect the system prompt and supporting context behind generated responses.",
      Some("Prompt content supports lazy loading from async functions to reduce initial page work."),
      "2026-01-12",
      Some(["AI", "Transparency"]),
      Some([ChangeTerm("system-prompt", "System prompt",
        "The hidden instruction that shapes model behavior before user messages are processed.",
        Internal, None)]))
  ]

  /** The shipped entries are declared newest first. */
  lemma AppUpdatesNewestFirst()
    ensures forall i, j :: 0 <= i < j < |APP_UPDATES| ==> Comparator(Desc)(APP_UPDATES[i], APP_UPDATES[j]) <= 0
  {
    AppUpdatesNeighbours();
    NewestFirstByNeighbours(APP_UPDATES);
  }

  /** Newest first between neighbours is newest first throughout. */
  lemma {:induction false} NewestFirstByNeighbours(u: seq<ChangeEntry>)
    requires forall i :: 0 <= i < |u| - 1 ==> LocaleCompare(u[i + 1].publishedAt, u[i].publishedAt) <= 0
    ensures forall i, j :: 0 <= i < j < |u| ==> Comparator(Desc)(u[i], u[j]) <= 0
  {
    if |u| > 1 {
      NewestFirstByNeighbours(u[1..]);
      forall j | 1 <= j < |u| ensures LocaleCompare(u[j].publishedAt, u[0].publishedAt) <= 0 {
        if j > 1 {
          assert Comparator(Desc)(u[1..][0], u[1..][j - 1]) <= 0;
          LocaleCompareTransitive(u[j].publishedAt, u[1].publishedAt, u[0].publishedAt);
        }
      }
      forall i, j | 0 <= i < j < |u| ensures Comparator(Desc)(u[i], u[j]) <= 0 {
        if i > 0 {
          assert Comparator(Desc)(u[1..][i - 1], u[1..][j - 1]) <= 0;
        }
      }
    }
  }

  lemma AppUpdatesNeighbours()
    ensures forall i :: 0 <= i < |APP_UPDATES| - 1 ==>
      LocaleCompare(APP_UPDATES[i + 1].publishedAt, APP_UPDATES[i].publishedAt) <= 0
  {
    AppUpdatesDates();
    Date0207Before0211();
    Date0129Before0207();
    Date0121Before0129();
    Date0112Before0121();
  }

  // The four neighbouring pairs of shipped dates, one lemma each: evaluating
  // the comparison on literal strings is cheap alone and costly together.
  lemma Date0207Before0211() ensures LocaleCompare("2026-02-07", "2026-02-11") < 0 {}
  lemma Date0129Before0207() ensures LocaleCompare("2026-01-29", "2026-02-07") < 0 {}
  lemma Date0121Before0129() ensures LocaleCompare("2026-01-21", "2026-01-29") < 0 {}
  lemma Date0112Before0121() ensures LocaleCompare("2026-01-12", "2026-01-21") < 0 {}

  lemma AppUpdatesDates()
    ensures |APP_UPDATES| == 5
    ensures APP_UPDATES[0].publishedAt == "2026-02-11" && APP_UPDATES[1].publishedAt == "2026-02-07"
    ensures APP_UPDATES[2].publishedAt == "2026-01-29" && APP_UPDATES[3].publishedAt == "2026-01-21"
    ensures APP_UPDATES[4].publishedAt == "2026-01-12"
  {
  }

  /** So sorting newest first leaves them as declared. */
  lemma AppUpdatesSortedAsDeclared()
    ensures SortUpdates(APP_UPDATES, Desc) == APP_UPDATES
  {
    AppUpdatesNewestFirst();
    SortUpdatesKeepsOrderedList(APP_UPDATES, Desc);
  }

  /** The first visit shows the four newest entries and offers "See more updates". */
  lemma AppFirstPage()
    ensures AppPage(INITIAL_VIEW) == Page(APP_UPDATES[..4], Some("See more updates"))
  {
    AppUpdatesSortedAsDeclared();
    AppUpdatesDates();
    RenderOrderedList(APP_UPDATES, INITIAL_VIEW, APP_PAGE_SIZE);
  }

  /** Pressing the toggle shows all five and offers "Show fewer updates". */
  lemma AppExpandedPage()
    ensures AppPage(ToggleShowAll(INITIAL_VIEW)) == Page(APP_UPDATES, Some("Show fewer updates"))
  {
    AppUpdatesSortedAsDeclared();
    AppUpdatesDates();
    RenderOrderedList(APP_UPDATES, ToggleShowAll(INITIAL_VIEW), APP_PAGE_SIZE);
  }

  lemma RenderOrderedList(u: seq<ChangeEntry>, v: View, pageSize: nat)
    requires SortUpdates(u, v.order) == u
    ensures Render(u, v, pageSize).visible == if v.showAll || |u| <= pageSize then u else u[..pageSize]
    ensures Render(u, v, pageSize).toggle == if |u| > pageSize then Some(ToggleLabel(v.showAll)) else None
  {
  }

  // ---- The recipe copy (recipes/changelog) ----

  const RECIPE_PAGE_SIZE: nat := 5

  /** The recipe ships with no entries. */
  const RECIPE_UPDATES: seq<ChangeEntry> := []

  function RecipePage(v: View): Page
  {
    Render(RECIPE_UPDATES, v, RECIPE_PAGE_SIZE)
  }

  /** With nothing shipped, no entry and no toggle is rendered, whatever the view. */
  lemma RecipePageEmpty(v: View)
    ensures RecipePage(v) == Page([], None)
  {
  }
}
