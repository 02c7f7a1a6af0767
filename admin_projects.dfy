/** The projects editor (app/admin/projects/page.tsx): an ordered list of
    case-study projects, each with three nested lists, saved by delete-all
    and re-insert with the comma-separated fields normalised. */
module AdminProjects {
  import opened Opt
  import JsText
  import Lists
  import Store

  /** One design visual of a project: an image, its kind ("web", "mobile"
      or "both", as the select offers them) and a caption. */
  datatype Visual = Visual(url: string, kind: string, caption: string)
  datatype VisualField = VisualUrl | VisualKind | VisualCaption

  /** One colour swatch of a project's palette. */
  datatype Swatch = Swatch(name: string, hex: string, usage: string)
  datatype SwatchField = SwatchName | SwatchHex | SwatchUsage

  /** One before/after comparison of a project. */
  datatype Comparison = Comparison(beforeUrl: string, afterUrl: string, caption: string, kind: string)
  datatype ComparisonField = BeforeUrl | AfterUrl | ComparisonCaption | ComparisonKind

  /** The typography block; every entry is optional. */
  datatype Typography = Typography(primaryFont: Option<string>, secondaryFont: Option<string>, headingSizes: Option<string>, bodySizes: Option<string>)
  datatype FontField = PrimaryFont | SecondaryFont | HeadingSizes | BodySizes

  /** `{}`. */
  const NoTypography := Typography(None, None, None, None)

  /** A project as the editor holds it and as the `projects` table stores it.
      An absent (undefined or null) column is None; `metrics` is a string while
      it is being typed and an array once saved, `tags` likewise. */
  datatype Project = Project(
    id: Option<string>,
    title: Option<string>,
    description: Option<string>,
    metrics: JsText.ListField,
    gradient: Option<string>,
    imageUrl: Option<string>,
    category: Option<string>,
    orderIndex: Option<int>,
    year: Option<string>,
    myRole: Option<string>,
    tags: JsText.ListField,
    impactResults: Option<string>,
    projectOverview: Option<string>,
    challenge: Option<string>,
    userResearch: Option<string>,
    designSolution: Option<string>,
    userFlow: Option<string>,
    resultsImpact: Option<string>,
    usabilityTesting: Option<string>,
    designVisuals: Option<seq<Visual>>,
    colorPalette: Option<seq<Swatch>>,
    typography: Option<Typography>,
    beforeAfter: Option<seq<Comparison>>,
    isDraft: Option<bool>)

  /** Every key of a project but `id`: what `updateProject` may be given as `field`. */
  datatype Slot =
    | Title | Description | Metrics | Gradient | ImageUrl | Category | OrderIndex | Year | MyRole | Tags
    | ImpactResults | ProjectOverview | Challenge | UserResearch | DesignSolution | UserFlow | ResultsImpact
    | UsabilityTesting | DesignVisuals | ColorPalette | TypographySlot | BeforeAfter | IsDraft

  /** The value held in one slot. */
  datatype Value =
    | TextValue(text: Option<string>)
    | ListValue(list: JsText.ListField)
    | IndexValue(index: Option<int>)
    | VisualsValue(visuals: Option<seq<Visual>>)
    | PaletteValue(palette: Option<seq<Swatch>>)
    | TypographyValue(typography: Option<Typography>)
    | ComparisonsValue(comparisons: Option<seq<Comparison>>)
    | DraftValue(draft: Option<bool>)

  function Get(p: Project, s: Slot): Value {
    match s
    case Title => TextValue(p.title)
    case Description => TextValue(p.description)
    case Metrics => ListValue(p.metrics)
    case Gradient => TextValue(p.gradient)
    case ImageUrl => TextValue(p.imageUrl)
    case Category => TextValue(p.category)
    case OrderIndex => IndexValue(p.orderIndex)
    case Year => TextValue(p.year)
    case MyRole => TextValue(p.myRole)
    case Tags => ListValue(p.tags)
    case ImpactResults => TextValue(p.impactResults)
    case ProjectOverview => TextValue(p.projectOverview)
    case Challenge => TextValue(p.challenge)
    case UserResearch => TextValue(p.userResearch)
    case DesignSolution => TextValue(p.designSolution)
    case UserFlow => TextValue(p.userFlow)
    case ResultsImpact => TextValue(p.resultsImpact)
    case UsabilityTesting => TextValue(p.usabilityTesting)
    case DesignVisuals => VisualsValue(p.designVisuals)
    case ColorPalette => PaletteValue(p.colorPalette)
    case TypographySlot => TypographyValue(p.typography)
    case BeforeAfter => ComparisonsValue(p.beforeAfter)
    case IsDraft => DraftValue(p.isDraft)
  }

  /** The value has the type the slot is declared with. */
  predicate Fits(s: Slot, v: Value) {
    match s
    case Metrics | Tags => v.ListValue?
    case OrderIndex => v.IndexValue?
    case DesignVisuals => v.VisualsValue?
    case ColorPalette => v.PaletteValue?
    case TypographySlot => v.TypographyValue?
    case BeforeAfter => v.ComparisonsValue?
    case IsDraft => v.DraftValue?
    case _ => v.TextValue?
  }

  /** What a slot holds always fits it. */
  lemma GetFits(p: Project, s: Slot)
    ensures Fits(s, Get(p, s))
  {
  }

  /** `{ ...p, [field]: value }`: the slot takes the value, no other slot and not the id changes. */
  function With(p: Project, s: Slot, v: Value): (r: Project)
    requires Fits(s, v)
    ensures Get(r, s) == v
    ensures forall t :: t != s ==> Get(r, t) == Get(p, t)
    ensures r.id == p.id
  {
    match s
    case Title => p.(title := v.text)
    case Description => p.(description := v.text)
    case Metrics => p.(metrics := v.list)
    case Gradient => p.(gradient := v.text)
    case ImageUrl => p.(imageUrl := v.text)
    case Category => p.(category := v.text)
    case OrderIndex => p.(orderIndex := v.index)
    case Year => p.(year := v.text)
    case MyRole => p.(myRole := v.text)
    case Tags => p.(tags := v.list)
    case ImpactResults => p.(impactResults := v.text)
    case ProjectOverview => p.(projectOverview := v.text)
    case Challenge => p.(challenge := v.text)
    case UserResearch => p.(userResearch := v.text)
    case DesignSolution => p.(designSolution := v.text)
    case UserFlow => p.(userFlow := v.text)
    case ResultsImpact => p.(resultsImpact := v.text)
    case UsabilityTesting => p.(usabilityTesting := v.text)
    case DesignVisuals => p.(designVisuals := v.visuals)
    case ColorPalette => p.(colorPalette := v.palette)
    case TypographySlot => p.(typography := v.typography)
    case BeforeAfter => p.(beforeAfter := v.comparisons)
    case IsDraft => p.(isDraft := v.draft)
  }

  /** The project `addProject` appends when the list holds `count` projects. */
  function NewProject(count: nat): (r: Project)
    ensures r.id == None && r.orderIndex == Some(count)
    ensures r.category == Some("Featured Work") && r.isDraft == Some(false)
    ensures r.designVisuals == Some([]) && r.colorPalette == Some([]) && r.beforeAfter == Some([])
    ensures r.typography == Some(NoTypography)
    ensures r.gradient == Some("from-blue-500 to-purple-500")
    ensures r.metrics == JsText.Text("") && r.tags == JsText.Text("")
  {
    Project(None, Some(""), Some(""), JsText.Text(""), Some("from-blue-500 to-purple-500"), Some(""),
            Some("Featured Work"), Some(count), Some(""), Some(""), JsText.Text(""),
            None, None, None, None, None, None, None, None,
            Some([]), Some([]), Some(NoTypography), Some([]), Some(false))
  }

  /** The three nested lists, `|| []`. */
  function Visuals(p: Project): seq<Visual> { p.designVisuals.GetOr([]) }
  function Palette(p: Project): seq<Swatch> { p.colorPalette.GetOr([]) }
  function Comparisons(p: Project): seq<Comparison> { p.beforeAfter.GetOr([]) }

  /** The entries the three "add" buttons push. */
  const NewVisual := Visual("", "web", "")
  const NewSwatch := Swatch("", "#000000", "")
  const NewComparison := Comparison("", "", "", "design")

  /** `{ ...v, [field]: value }` on a visual. */
  function WithVisual(v: Visual, f: VisualField, value: string): (r: Visual)
    ensures f == VisualUrl ==> r == Visual(value, v.kind, v.caption)
    ensures f == VisualKind ==> r == Visual(v.url, value, v.caption)
    ensures f == VisualCaption ==> r == Visual(v.url, v.kind, value)
  {
    match f
    case VisualUrl => v.(url := value)
    case VisualKind => v.(kind := value)
    case VisualCaption => v.(caption := value)
  }

  /** `{ ...s, [field]: value }` on a swatch. */
  function WithSwatch(s: Swatch, f: SwatchField, value: string): (r: Swatch)
    ensures f == SwatchName ==> r == Swatch(value, s.hex, s.usage)
    ensures f == SwatchHex ==> r == Swatch(s.name, value, s.usage)
    ensures f == SwatchUsage ==> r == Swatch(s.name, s.hex, value)
  {
    match f
    case SwatchName => s.(name := value)
    case SwatchHex => s.(hex := value)
    case SwatchUsage => s.(usage := value)
  }

  /** `{ ...c, [field]: value }` on a comparison. */
  function WithComparison(c: Comparison, f: ComparisonField, value: string): (r: Comparison)
    ensures f == BeforeUrl ==> r == Comparison(value, c.afterUrl, c.caption, c.kind)
    ensures f == AfterUrl ==> r == Comparison(c.beforeUrl, value, c.caption, c.kind)
    ensures f == ComparisonCaption ==> r == Comparison(c.beforeUrl, c.afterUrl, value, c.kind)
    ensures f == ComparisonKind ==> r == Comparison(c.beforeUrl, c.afterUrl, c.caption, value)
  {
    match f
    case BeforeUrl => c.(beforeUrl := value)
    case AfterUrl => c.(afterUrl := value)
    case ComparisonCaption => c.(caption := value)
    case ComparisonKind => c.(kind := value)
  }

  /** `{ ...project.typography, [font]: value }`, the value the typography
      inputs hand to `updateProject`; spreading an absent block gives `{}`. */
  function WithFont(t: Option<Typography>, f: FontField, value: string): (r: Typography)
    ensures f == PrimaryFont ==> r.primaryFont == Some(value)
    ensures f == SecondaryFont ==> r.secondaryFont == Some(value)
    ensures f == HeadingSizes ==> r.headingSizes == Some(value)
    ensures f == BodySizes ==> r.bodySizes == Some(value)
    ensures f != PrimaryFont ==> r.primaryFont == t.GetOr(NoTypography).primaryFont
    ensures f != SecondaryFont ==> r.secondaryFont == t.GetOr(NoTypography).secondaryFont
    ensures f != HeadingSizes ==> r.headingSizes == t.GetOr(NoTypography).headingSizes
    ensures f != BodySizes ==> r.bodySizes == t.GetOr(NoTypography).bodySizes
  {
    var base := t.GetOr(NoTypography);
    match f
    case PrimaryFont => base.(primaryFont := Some(value))
    case SecondaryFont => base.(secondaryFont := Some(value))
    case HeadingSizes => base.(headingSizes := Some(value))
    case BodySizes => base.(bodySizes := Some(value))
  }

  /** `x.split(",").map(m => m.trim()).filter(m => m)`. */
  function CommaItems(s: string): seq<string> {
    JsText.Compact(JsText.SplitTrim(s, ','))
  }

  /** The normalised items are exactly the non-empty trimmed pieces of the
      text, each already trimmed. */
  lemma CommaItemsFacts(s: string)
    ensures forall i :: 0 <= i < |CommaItems(s)| ==>
              CommaItems(s)[i] != "" && JsText.Trim(CommaItems(s)[i]) == CommaItems(s)[i]
    ensures forall m :: m in CommaItems(s) <==> m in JsText.SplitTrim(s, ',') && m != ""
  {
    var pieces := JsText.SplitTrim(s, ',');
    forall i | 0 <= i < |CommaItems(s)|
      ensures JsText.Trim(CommaItems(s)[i]) == CommaItems(s)[i]
    {
      var m := CommaItems(s)[i];
      assert m in pieces;
      var k :| 0 <= k < |pieces| && pieces[k] == m;
      JsText.TrimIdempotent(JsText.Split(s, ',')[k]);
    }
  }

  /** The row `handleSave` inserts for a project: the id dropped, string
      metrics and non-empty string tags split into items, every other tags
      value replaced by [], and the falsy defaults filled in. */
  function Normalised(p: Project): (r: Project)
    ensures r.id == None
    ensures !r.metrics.Text? && r.tags.Items?
    ensures r.category.Some? && r.category.value != ""
    ensures r.orderIndex.Some? && r.isDraft.Some?
    ensures r.designVisuals.Some? && r.colorPalette.Some? && r.typography.Some? && r.beforeAfter.Some?
  {
    Project(
      None, p.title, p.description,
      if p.metrics.Text? then JsText.Items(CommaItems(p.metrics.text)) else p.metrics,
      p.gradient, p.imageUrl,
      Some(JsText.Or(p.category, "Featured Work")),
      Some(p.orderIndex.GetOr(0)),
      p.year, p.myRole,
      if p.tags.Text? && p.tags.text != "" then JsText.Items(CommaItems(p.tags.text)) else JsText.Items([]),
      p.impactResults, p.projectOverview, p.challenge, p.userResearch, p.designSolution, p.userFlow,
      p.resultsImpact, p.usabilityTesting,
      Some(Visuals(p)), Some(Palette(p)), Some(p.typography.GetOr(NoTypography)), Some(Comparisons(p)),
      Some(p.isDraft == Some(true)))
  }

  /** Saved metrics: text becomes its non-empty trimmed comma items; an
      array or an absent value is sent as it is. */
  lemma SavedMetrics(p: Project)
    ensures p.metrics.Text? ==>
              Normalised(p).metrics.Items?
              && forall m :: m in Normalised(p).metrics.items <==> m in JsText.SplitTrim(p.metrics.text, ',') && m != ""
    ensures p.metrics.Text? ==> forall i :: 0 <= i < |Normalised(p).metrics.items| ==> Normalised(p).metrics.items[i] != ""
    ensures !p.metrics.Text? ==> Normalised(p).metrics == p.metrics
  {
    if p.metrics.Text? {
      CommaItemsFacts(p.metrics.text);
    }
  }

  /** Saved tags: only a non-empty text is split; an empty text, an array
      or an absent value is saved as []. */
  lemma SavedTags(p: Project)
    ensures Normalised(p).tags.Items?
    ensures p.tags.Text? && p.tags.text != "" ==>
              forall m :: m in Normalised(p).tags.items <==> m in JsText.SplitTrim(p.tags.text, ',') && m != ""
    ensures !(p.tags.Text? && p.tags.text != "") ==> Normalised(p).tags.items == []
  {
    if p.tags.Text? && p.tags.text != "" {
      CommaItemsFacts(p.tags.text);
    }
  }

  /** Saved defaults: a falsy category becomes "Featured Work", a missing
      order 0, missing nested lists [], missing typography {}, and the draft
      flag false unless it was true. Nothing is left absent. */
  lemma SavedDefaults(p: Project)
    ensures var r := Normalised(p);
            r.id == None
            && (JsText.Truthy(p.category) ==> r.category == p.category)
            && (!JsText.Truthy(p.category) ==> r.category == Some("Featured Work"))
            && (p.orderIndex.Some? ==> r.orderIndex == p.orderIndex)
            && (p.orderIndex.None? ==> r.orderIndex == Some(0))
            && (p.designVisuals.Some? ==> r.designVisuals == p.designVisuals)
            && (p.designVisuals.None? ==> r.designVisuals == Some([]))
            && (p.colorPalette.Some? ==> r.colorPalette == p.colorPalette)
            && (p.colorPalette.None? ==> r.colorPalette == Some([]))
            && (p.typography.Some? ==> r.typography == p.typography)
            && (p.typography.None? ==> r.typography == Some(NoTypography))
            && (p.beforeAfter.Some? ==> r.beforeAfter == p.beforeAfter)
            && (p.beforeAfter.None? ==> r.beforeAfter == Some([]))
            && (r.isDraft == Some(true) <==> p.isDraft == Some(true))
            && r.isDraft.Some?
  {
  }

  /** The slots save does not normalise are inserted unchanged. */
  lemma SavedKeepsOtherSlots(p: Project, s: Slot)
    requires s !in {Metrics, Tags, Category, OrderIndex, DesignVisuals, ColorPalette, TypographySlot, BeforeAfter, IsDraft}
    ensures Get(Normalised(p), s) == Get(p, s)
  {
  }

  /** Saving twice keeps the metrics of the first save: their items hold no
      empty entry, and array metrics pass through. */
  lemma ResaveKeepsMetrics(p: Project)
    ensures Normalised(Normalised(p)).metrics == Normalised(p).metrics
  {
  }

  /** A project loaded back from the table has array tags, and saving it
      again without retyping them erases them. */
  lemma ResaveErasesTags(p: Project)
    ensures Normalised(Normalised(p)).tags == JsText.Items([])
  {
  }

  /** A freshly added project is saved with no metrics, no tags, its list position and not a draft. */
  lemma NewProjectSaved(count: nat)
    ensures var r := Normalised(NewProject(count));
            r.metrics == JsText.Items([]) && r.tags == JsText.Items([])
            && r.orderIndex == Some(count) && r.isDraft == Some(false)
  {
    assert JsText.Split("", ',') == [""];
    assert JsText.TrimAll([""]) == [""];
  }

  /** After a save that fully went through, the table holds the normalised list, in order. */
  lemma SaveStoresList(before: seq<Store.Row<Project>>, items: seq<Project>, outcomes: seq<Store.InsertOutcome>)
    requires |outcomes| == |items|
    requires forall i :: 0 <= i < |before| ==> before[i].id != Store.NilId
    requires Store.AllInserted(outcomes)
    ensures var stored := Store.Data(Store.Replaced(before, Lists.Map(Normalised, items), true, outcomes));
            |stored| == |items| && forall i :: 0 <= i < |items| ==> stored[i] == Normalised(items[i])
  {
    Store.ReplacedExactly(before, Lists.Map(Normalised, items), outcomes);
  }

  /** `r` is `s` with every project's `order_index` set to its position. */
  predicate RenumberedFrom(r: seq<Project>, s: seq<Project>) {
    |r| == |s| && forall i :: 0 <= i < |s| ==> r[i] == s[i].(orderIndex := Some(i))
  }

  /** `updated.forEach((p, i) => p.order_index = i)`. */
  method Renumber(s: seq<Project>) returns (r: seq<Project>)
    ensures RenumberedFrom(r, s)
  {
    r := s;
    var i := 0;
    while i < |r|
      invariant 0 <= i <= |r| == |s|
      invariant forall k :: 0 <= k < i ==> r[k] == s[k].(orderIndex := Some(k))
      invariant forall k :: i <= k < |r| ==> r[k] == s[k]
    {
      r := r[i := r[i].(orderIndex := Some(i))];
      i := i + 1;
    }
  }

  /** Renumbering changes nothing but `order_index`, which then equals the position. */
  lemma RenumberedSlots(r: seq<Project>, s: seq<Project>, i: nat)
    requires RenumberedFrom(r, s) && i < |s|
    ensures r[i].id == s[i].id && Get(r[i], OrderIndex) == IndexValue(Some(i))
    ensures forall t :: t != OrderIndex ==> Get(r[i], t) == Get(s[i], t)
  {
    assert r[i] == With(s[i], OrderIndex, IndexValue(Some(i)));
  }

  /** A project with its `order_index` erased: what a move must preserve. */
  function Unnumbered(p: Project): Project {
    p.(orderIndex := None)
  }

  /** A move is a permutation of the projects up to their `order_index`:
      renumbering a swap of `s` gives back the projects of `s`, two of them exchanged. */
  lemma {:induction false} MovePermutes(r: seq<Project>, s: seq<Project>, i: nat, j: nat)
    requires i < |s| && j < |s|
    requires RenumberedFrom(r, Lists.Swap(s, i, j))
    ensures multiset(Lists.Map(Unnumbered, r)) == multiset(Lists.Map(Unnumbered, s))
    ensures Lists.Map(Unnumbered, r) == Lists.Swap(Lists.Map(Unnumbered, s), i, j)
  {
    var a := Lists.Map(Unnumbered, r);
    var b := Lists.Swap(Lists.Map(Unnumbered, s), i, j);
    assert |a| == |b|;
    forall k | 0 <= k < |a|
      ensures a[k] == b[k]
    {
      var w := Lists.Swap(s, i, j);
      assert Unnumbered(r[k]) == Unnumbered(w[k]);
    }
    assert a == b;
  }

  /** The page's state: the edited list and its two spinner flags. */
  class Editor {
    var projects: seq<Project>
    var isLoading: bool
    var isSaving: bool
    /** Where `router.push` sent the browser, once a save finished. */
    var navigatedTo: Option<string>

    constructor ()
      ensures projects == [] && isLoading && !isSaving && navigatedTo == None
    {
      projects := [];
      isLoading := true;
      isSaving := false;
      navigatedTo := None;
    }

    /** `loadContent`: the list becomes the returned rows (ordered by
        creation) when data came back; loading ends either way. */
    method Load(data: Option<seq<Project>>)
      modifies this
      ensures projects == if data.Some? then data.value else old(projects)
      ensures !isLoading && isSaving == old(isSaving) && navigatedTo == old(navigatedTo)
    {
      if data.Some? {
        projects := data.value;
      }
      isLoading := false;
    }

    /** `addProject`: appends one blank project numbered with the old length. */
    method Add()
      modifies this
      ensures projects == old(projects) + [NewProject(|old(projects)|)]
      ensures isLoading == old(isLoading) && isSaving == old(isSaving) && navigatedTo == old(navigatedTo)
    {
      projects := projects + [NewProject(|projects|)];
    }

    /** `removeProject`: drops the project at `index`, the rest keep their order. */
    method Remove(index: int)
      modifies this
      ensures projects == Lists.WithoutIndex(old(projects), index)
      ensures isLoading == old(isLoading) && isSaving == old(isSaving) && navigatedTo == old(navigatedTo)
    {
      projects := Lists.WithoutIndex(projects, index);
    }

    /** `updateProject`: one slot of one project; every other project is unchanged. */
    method Update(index: nat, s: Slot, v: Value)
      requires index < |projects| && Fits(s, v)
      modifies this
      ensures projects == old(projects)[index := With(old(projects)[index], s, v)]
      ensures isLoading == old(isLoading) && isSaving == old(isSaving) && navigatedTo == old(navigatedTo)
    {
      var updated := projects;
      updated := updated[index := With(updated[index], s, v)];
      projects := updated;
    }

    /** `moveProjectUp`: nothing at the top; otherwise swap with the one
        above and renumber every project by position. */
    method MoveUp(index: nat)
      requires index < |projects|
      modifies this
      ensures index == 0 ==> projects == old(projects)
      ensures index > 0 ==> RenumberedFrom(projects, Lists.Swap(old(projects), index - 1, index))
      ensures isLoading == old(isLoading) && isSaving == old(isSaving) && navigatedTo == old(navigatedTo)
    {
      if index == 0 {
        return;
      }
      var updated := Lists.Swap(projects, index - 1, index);
      updated := Renumber(updated);
      projects := updated;
    }

    /** `moveProjectDown`: nothing at the bottom; otherwise swap with the one
        below and renumber every project by position. */
    method MoveDown(index: nat)
      requires index < |projects|
      modifies this
      ensures index == |old(projects)| - 1 ==> projects == old(projects)
      ensures index < |old(projects)| - 1 ==> RenumberedFrom(projects, Lists.Swap(old(projects), index, index + 1))
      ensures isLoading == old(isLoading) && isSaving == old(isSaving) && navigatedTo == old(navigatedTo)
    {
      if index == |projects| - 1 {
        return;
      }
      var updated := Lists.Swap(projects, index, index + 1);
      updated := Renumber(updated);
      projects := updated;
    }

    /** `addDesignVisual`: pushes a blank web visual onto that project's list. */
    method AddVisual(pi: nat)
      requires pi < |projects|
      modifies this
      ensures projects == old(projects)[pi := old(projects)[pi].(designVisuals := Some(Visuals(old(projects)[pi]) + [NewVisual]))]
      ensures isLoading == old(isLoading) && isSaving == old(isSaving) && navigatedTo == old(navigatedTo)
    {
      var updated := projects;
      var visuals := Visuals(updated[pi]);
      visuals := visuals + [NewVisual];
      updated := updated[pi := updated[pi].(designVisuals := Some(visuals))];
      projects := updated;
    }

    /** `removeDesignVisual`: `splice(vi, 1)` on that project's list. */
    method RemoveVisual(pi: nat, vi: int)
      requires pi < |projects|
      modifies this
      ensures projects == old(projects)[pi := old(projects)[pi].(designVisuals := Some(Lists.SpliceOne(Visuals(old(projects)[pi]), vi)))]
      ensures isLoading == old(isLoading) && isSaving == old(isSaving) && navigatedTo == old(navigatedTo)
    {
      var updated := projects;
      var visuals := Lists.SpliceOne(Visuals(updated[pi]), vi);
      updated := updated[pi := updated[pi].(designVisuals := Some(visuals))];
      projects := updated;
    }

    /** `updateDesignVisual`: one field of one visual of one project. */
    method UpdateVisual(pi: nat, vi: nat, f: VisualField, value: string)
      requires pi < |projects| && vi < |Visuals(projects[pi])|
      modifies this
      ensures var vs := Visuals(old(projects)[pi]);
              projects == old(projects)[pi := old(projects)[pi].(designVisuals := Some(vs[vi := WithVisual(vs[vi], f, value)]))]
      ensures isLoading == old(isLoading) && isSaving == old(isSaving) && navigatedTo == old(navigatedTo)
    {
      var updated := projects;
      var visuals := Visuals(updated[pi]);
      visuals := visuals[vi := WithVisual(visuals[vi], f, value)];
      updated := updated[pi := updated[pi].(designVisuals := Some(visuals))];
      projects := updated;
    }

    /** `addColorSwatch`: pushes a black swatch onto that project's palette. */
    method AddSwatch(pi: nat)
      requires pi < |projects|
      modifies this
      ensures projects == old(projects)[pi := old(projects)[pi].(colorPalette := Some(Palette(old(projects)[pi]) + [NewSwatch]))]
      ensures isLoading == old(isLoading) && isSaving == old(isSaving) && navigatedTo == old(navigatedTo)
    {
      var updated := projects;
      var palette := Palette(updated[pi]);
      palette := palette + [NewSwatch];
      updated := updated[pi := updated[pi].(colorPalette := Some(palette))];
      projects := updated;
    }

    /** `removeColorSwatch`: `splice(si, 1)` on that project's palette. */
    method RemoveSwatch(pi: nat, si: int)
      requires pi < |projects|
      modifies this
      ensures projects == old(projects)[pi := old(projects)[pi].(colorPalette := Some(Lists.SpliceOne(Palette(old(projects)[pi]), si)))]
      ensures isLoading == old(isLoading) && isSaving == old(isSaving) && navigatedTo == old(navigatedTo)
    {
      var updated := projects;
      var palette := Lists.SpliceOne(Palette(updated[pi]), si);
      updated := updated[pi := updated[pi].(colorPalette := Some(palette))];
      projects := updated;
    }

    /** `updateColorSwatch`: one field of one swatch of one project. */
    method UpdateSwatch(pi: nat, si: nat, f: SwatchField, value: string)
      requires pi < |projects| && si < |Palette(projects[pi])|
      modifies this
      ensures var ps := Palette(old(projects)[pi]);
              projects == old(projects)[pi := old(projects)[pi].(colorPalette := Some(ps[si := WithSwatch(ps[si], f, value)]))]
      ensures isLoading == old(isLoading) && isSaving == old(isSaving) && navigatedTo == old(navigatedTo)
    {
      var updated := projects;
      var palette := Palette(updated[pi]);
      palette := palette[si := WithSwatch(palette[si], f, value)];
      updated := updated[pi := updated[pi].(colorPalette := Some(palette))];
      projects := updated;
    }

    /** `addBeforeAfter`: pushes a blank design comparison onto that project's list. */
    method AddComparison(pi: nat)
      requires pi < |projects|
      modifies this
      ensures projects == old(projects)[pi := old(projects)[pi].(beforeAfter := Some(Comparisons(old(projects)[pi]) + [NewComparison]))]
      ensures isLoading == old(isLoading) && isSaving == old(isSaving) && navigatedTo == old(navigatedTo)
    {
      var updated := projects;
      var comparisons := Comparisons(updated[pi]);
      comparisons := comparisons + [NewComparison];
      updated := updated[pi := updated[pi].(beforeAfter := Some(comparisons))];
      projects := updated;
    }

    /** `removeBeforeAfter`: `splice(ci, 1)` on that project's comparisons. */
    method RemoveComparison(pi: nat, ci: int)
      requires pi < |projects|
      modifies this
      ensures projects == old(projects)[pi := old(projects)[pi].(beforeAfter := Some(Lists.SpliceOne(Comparisons(old(projects)[pi]), ci)))]
      ensures isLoading == old(isLoading) && isSaving == old(isSaving) && navigatedTo == old(navigatedTo)
    {
      var updated := projects;
      var comparisons := Lists.SpliceOne(Comparisons(updated[pi]), ci);
      updated := updated[pi := updated[pi].(beforeAfter := Some(comparisons))];
      projects := updated;
    }

    /** `updateBeforeAfter`: one field of one comparison of one project. */
    method UpdateComparison(pi: nat, ci: nat, f: ComparisonField, value: string)
      requires pi < |projects| && ci < |Comparisons(projects[pi])|
      modifies this
      ensures var cs := Comparisons(old(projects)[pi]);
              projects == old(projects)[pi := old(projects)[pi].(beforeAfter := Some(cs[ci := WithComparison(cs[ci], f, value)]))]
      ensures isLoading == old(isLoading) && isSaving == old(isSaving) && navigatedTo == old(navigatedTo)
    {
      var updated := projects;
      var comparisons := Comparisons(updated[pi]);
      comparisons := comparisons[ci := WithComparison(comparisons[ci], f, value)];
      updated := updated[pi := updated[pi].(beforeAfter := Some(comparisons))];
      projects := updated;
    }

    /** `handleSave`: deletes every row, then inserts each project normalised,
        in list order; then leaves for the dashboard. */
    method Save(table: Store.Table<Project>, deleteOk: bool, outcomes: seq<Store.InsertOutcome>)
      requires |outcomes| == |projects|
      modifies this, table
      ensures projects == old(projects) && isLoading == old(isLoading)
      ensures table.rows == Store.Replaced(old(table.rows), Lists.Map(Normalised, projects), deleteOk, outcomes)
      ensures !isSaving && navigatedTo == Some("/admin")
    {
      isSaving := true;
      Store.SaveAll(table, projects, Normalised, deleteOk, outcomes);
      isSaving := false;
      navigatedTo := Some("/admin");
    }
  }
}
