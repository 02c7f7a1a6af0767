/** The public case-study grid (components/case-studies.tsx): published
    project rows mapped to cards, with five placeholder cards as fallback. */
module CaseStudies {
  import opened Opt
  import JsText
  import AdminProjects

  /** One card of the grid. */
  datatype Card = Card(
    id: Option<string>,
    title: string,
    description: string,
    category: string,
    image: Option<string>,
    gradient: string,
    hasImage: bool,
    metrics: seq<string>,
    size: string)

  /** The five gradient classes, cycled through by position. */
  const Gradients: seq<string> := [
    "bg-gradient-to-br from-pink-500 to-rose-500",
    "bg-gradient-to-br from-blue-500 to-cyan-500",
    "bg-gradient-to-br from-purple-500 to-indigo-500",
    "bg-gradient-to-br from-green-500 to-emerald-500",
    "bg-gradient-to-br from-orange-500 to-amber-500"]

  /** The grid cell of the card at a position: 2x2 first, 1x2 third, 2x1 fifth, 1x1 otherwise. */
  function SizeClass(index: nat): (c: string)
    ensures index == 0 ==> c == "md:col-span-2 md:row-span-2"
    ensures index == 2 ==> c == "md:col-span-1 md:row-span-2"
    ensures index == 4 ==> c == "md:col-span-2 md:row-span-1"
    ensures index !in {0, 2, 4} ==> c == "md:col-span-1 md:row-span-1"
  {
    if index == 0 then "md:col-span-2 md:row-span-2"
    else if index == 2 then "md:col-span-1 md:row-span-2"
    else if index == 4 then "md:col-span-2 md:row-span-1"
    else "md:col-span-1 md:row-span-1"
  }

  /** The cards shown until rows arrive, and whenever none do. */
  const Placeholders: seq<Card> := [
    Card(Some("1"), "Project Alpha", "Innovative UI design for modern healthcare", "UI Design",
         None, "bg-gradient-to-br from-pink-500 to-rose-500", false, ["User-Centered", "Accessible"], "md:col-span-2 md:row-span-2"),
    Card(Some("2"), "Project Beta", "Research-driven design solutions", "UX Research",
         None, "bg-gradient-to-br from-blue-500 to-cyan-500", false, ["Data-Driven", "Impact"], "md:col-span-1 md:row-span-1"),
    Card(Some("3"), "Project Gamma", "Seamless development experience", "Development",
         None, "bg-gradient-to-br from-purple-500 to-indigo-500", false, ["Scalable", "Modern"], "md:col-span-1 md:row-span-2"),
    Card(Some("4"), "Project Delta", "Brand identity that resonates", "Branding",
         None, "bg-gradient-to-br from-green-500 to-emerald-500", false, ["Memorable", "Bold"], "md:col-span-1 md:row-span-1"),
    Card(Some("5"), "Project Epsilon", "Strategic design thinking", "Strategy",
         None, "bg-gradient-to-br from-orange-500 to-amber-500", false, ["Business Value", "Innovation"], "md:col-span-2 md:row-span-1")]

  /** The placeholders follow the same layout rules as mapped cards: the
      gradient and the size of their position, and no image. */
  lemma PlaceholdersFollowLayout(i: nat)
    requires i < |Placeholders|
    ensures Placeholders[i].gradient == Gradients[i % |Gradients|]
    ensures Placeholders[i].size == SizeClass(i)
    ensures !Placeholders[i].hasImage
  {
  }

  /** The metrics of a row: an array as it is, a string split on "," and
      trimmed (empty items kept), anything else none. */
  function CardMetrics(m: JsText.ListField): (r: seq<string>)
    ensures m.Items? ==> r == m.items
    ensures m.Text? ==> |r| == |JsText.Split(m.text, ',')|
                        && forall i :: 0 <= i < |r| ==> r[i] == JsText.Trim(JsText.Split(m.text, ',')[i])
    ensures m.Missing? ==> r == []
  {
    match m
    case Items(items) => items
    case Text(text) => JsText.SplitTrim(text, ',')
    case Missing => []
  }

  /** The card for the row at a position. */
  function ToCard(p: AdminProjects.Project, index: nat): (c: Card)
    ensures c.id == p.id && c.image == p.imageUrl
    ensures c.title == JsText.Or(p.title, "Untitled Project")
    ensures c.description == JsText.Or(p.description, "Project description coming soon")
    ensures c.category == JsText.Or(p.category, "Featured Work")
    ensures JsText.Truthy(p.gradient) ==> c.gradient == p.gradient.value
    ensures !JsText.Truthy(p.gradient) ==> c.gradient == Gradients[index % 5]
    ensures c.hasImage <==> JsText.Truthy(p.imageUrl)
    ensures c.metrics == CardMetrics(p.metrics) && c.size == SizeClass(index)
  {
    Card(p.id,
         JsText.Or(p.title, "Untitled Project"),
         JsText.Or(p.description, "Project description coming soon"),
         JsText.Or(p.category, "Featured Work"),
         p.imageUrl,
         JsText.Or(p.gradient, Gradients[index % |Gradients|]),
         JsText.Truthy(p.imageUrl),
         CardMetrics(p.metrics),
         SizeClass(index))
  }

  /** `data.map((project, index) => ...)`: one card per row, same order. */
  function Cards(rows: seq<AdminProjects.Project>): (cards: seq<Card>)
    ensures |cards| == |rows|
    ensures forall i :: 0 <= i < |rows| ==> cards[i] == ToCard(rows[i], i)
  {
    seq(|rows|, i requires 0 <= i < |rows| => ToCard(rows[i], i))
  }

  /** Cards without a gradient of their own repeat every five positions. */
  lemma GradientCycle(rows: seq<AdminProjects.Project>, i: nat)
    requires i + 5 < |rows|
    requires !JsText.Truthy(rows[i].gradient) && !JsText.Truthy(rows[i + 5].gradient)
    ensures Cards(rows)[i].gradient == Cards(rows)[i + 5].gradient
  {
    assert (i + 5) % 5 == i % 5;
  }

  /** How `fetchProjects` ended. */
  datatype Fetch =
    | Unconfigured                        // no backend URL in the environment
    | Failed                              // the query answered with an error
    | Threw                               // the query threw or lost the five-second race
    | Answered(rows: seq<AdminProjects.Project>)  // the published rows, by `order_index`

  /** What the section shows and whether it still waits. */
  datatype Section = Section(cards: seq<Card>, isLoading: bool)

  /** The section after `fetchProjects`. `mounted` is whether the component
      was still mounted when the answer came in. */
  function Fetched(outcome: Fetch, mounted: bool): (s: Section)
    ensures outcome.Answered? && |outcome.rows| > 0 && mounted ==> s.cards == Cards(outcome.rows)
    ensures !(outcome.Answered? && |outcome.rows| > 0 && mounted) ==> s.cards == Placeholders
    ensures !s.isLoading <==> mounted || outcome.Unconfigured?
  {
    match outcome
    case Unconfigured => Section(Placeholders, false)
    case Failed => Section(Placeholders, !mounted)
    case Threw => Section(Placeholders, !mounted)
    case Answered(rows) =>
      if !mounted then Section(Placeholders, true)
      else if |rows| > 0 then Section(Cards(rows), false)
      else Section(Placeholders, false)
  }

  /** `study.hasImage && study.image`: the card shows its photo only when it
      has one and its address is non-empty. */
  predicate ShowsImage(c: Card)
    ensures ShowsImage(c) ==> c.hasImage && c.image.Some? && c.image.value != ""
  {
    c.hasImage && JsText.Truthy(c.image)
  }

  /** The card shows its photo exactly when the row had a non-empty image url. */
  lemma ShowsImageIffImageUrl(p: AdminProjects.Project, index: nat)
    ensures ShowsImage(ToCard(p, index)) <==> JsText.Truthy(p.imageUrl)
  {
  }

  /** `study.gradient || "bg-gradient-to-br from-pink-500 to-rose-500"`: the
      background class when no photo is shown. */
  function Backdrop(c: Card): (cls: string)
    ensures cls != ""
    ensures c.gradient != "" ==> cls == c.gradient
  {
    if c.gradient != "" then c.gradient else Gradients[0]
  }

  /** The card's own fallback gradient is never empty, so a card built from a
      row always shows its own gradient and the backdrop's pink default never
      applies to it: the row's gradient when truthy, else the palette entry of
      its position. */
  lemma CardBackdrop(p: AdminProjects.Project, index: nat)
    ensures Backdrop(ToCard(p, index)) == ToCard(p, index).gradient
    ensures Backdrop(ToCard(p, index)) == if JsText.Truthy(p.gradient) then p.gradient.value else Gradients[index % 5]
  {
    assert forall i :: 0 <= i < |Gradients| ==> Gradients[i] != "";
  }

  /** `metrics.slice(0, 3)`: the chips a card displays. */
  function ShownMetrics(c: Card): (r: seq<string>)
    ensures |r| <= 3 && |r| <= |c.metrics|
    ensures r == c.metrics[..|r|]
    ensures |c.metrics| <= 3 ==> r == c.metrics
  {
    if |c.metrics| <= 3 then c.metrics else c.metrics[..3]
  }

  /** `"a,,b".split(",")`. */
  lemma SplitSample()
    ensures JsText.Split("a,,b", ',') == ["a", "", "b"]
  {
    assert "a,,b"[1..] == ",,b" && ",,b"[1..] == ",b" && ",b"[1..] == "b" && "b"[1..] == "";
    var last := JsText.Split("b", ',');
    assert last == ["b"];
    var rest := JsText.Split(",,b", ',');
    assert rest == [""] + ([""] + last);
    assert JsText.Split("a,,b", ',') == [['a'] + rest[0]] + rest[1..];
    assert rest[0] == "" && ['a'] + rest[0] == "a";
    assert rest[1..] == ["", "b"];
  }

  /** `"a,,b".split(",").map(x => x.trim())`: no piece changes. */
  lemma SplitTrimSample()
    ensures JsText.SplitTrim("a,,b", ',') == ["a", "", "b"]
  {
    SplitSample();
    JsText.TrimUntouched("a");
    JsText.TrimUntouched("");
    JsText.TrimUntouched("b");
  }

  /** `["a", "", "b"].filter(x => x)`. */
  lemma CompactSample()
    ensures JsText.Compact(["a", "", "b"]) == ["a", "b"]
  {
    var t: seq<string> := ["a", "", "b"];
    assert t[1..] == ["", "b"] && t[1..][1..] == ["b"] && t[1..][1..][1..] == [];
  }

  /** The two sides disagree on empty metric items: a string typed as
      "a,,b" is stored by the projects editor as two items, while a row that
      still holds the string shows three chips, one of them empty. */
  lemma EmptyMetricKeptOnlyPublicly()
    ensures CardMetrics(JsText.Text("a,,b")) == ["a", "", "b"]
    ensures JsText.Compact(JsText.SplitTrim("a,,b", ',')) == ["a", "b"]
  {
    SplitTrimSample();
    CompactSample();
  }

  /** A project saved by the editor never shows an empty metric chip. */
  lemma SavedProjectHasNoEmptyMetric(p: AdminProjects.Project, index: nat)
    requires p.metrics.Text?
    ensures forall m :: m in ToCard(AdminProjects.Normalised(p), index).metrics ==> m != ""
  {
    AdminProjects.SavedMetrics(p);
  }
}
