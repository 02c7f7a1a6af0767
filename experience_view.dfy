/** The public timeline (components/experience.tsx): experience rows mapped to entries. */
module ExperienceView {
  import opened Opt
  import JsText
  import AdminExperience

  /** An `experience` row as the section reads it. The section looks for a
      `duration` column; the editor writes `period`. */
  datatype Row = Row(
    company: Option<string>,
    role: Option<string>,
    period: Option<string>,
    duration: Option<string>,
    description: Option<string>,
    achievements: JsText.ListField)

  /** One timeline entry. */
  datatype Entry = Entry(
    company: Option<string>,
    role: Option<string>,
    period: Option<string>,
    location: string,
    description: Option<string>,
    achievements: seq<string>,
    color: string)

  /** The dot colour of the entry at a position. */
  function ColorFor(index: nat): (c: string)
    ensures index == 0 ==> c == "bg-accent"
    ensures index == 1 ==> c == "bg-primary"
    ensures index >= 2 ==> c == "bg-secondary"
  {
    if index == 0 then "bg-accent" else if index == 1 then "bg-primary" else "bg-secondary"
  }

  /** An array as it is, a string split on "," and trimmed, anything else none. */
  function Achievements(a: JsText.ListField): (r: seq<string>)
    ensures a.Items? ==> r == a.items
    ensures a.Text? ==> r == JsText.SplitTrim(a.text, ',')
    ensures a.Missing? ==> r == []
  {
    match a
    case Items(items) => items
    case Text(text) => JsText.SplitTrim(text, ',')
    case Missing => []
  }

  /** Text made of comma-separated items comes back as those items, trimmed:
      "A, B, C" gives ["A", "B", "C"]. */
  lemma {:induction false} AchievementsFromText(items: seq<string>)
    requires |items| >= 1
    requires forall i :: 0 <= i < |items| ==> ',' !in items[i]
    ensures Achievements(JsText.Text(JsText.Join(items, ','))) == JsText.TrimAll(items)
  {
    JsText.SplitJoin(items, ',');
  }

  /** The entry for the row at a position. */
  function ToEntry(r: Row, index: nat): (e: Entry)
    ensures e.company == r.company && e.role == r.role && e.description == r.description
    ensures e.period == r.duration && e.location == "Remote"
    ensures e.achievements == Achievements(r.achievements) && e.color == ColorFor(index)
  {
    Entry(r.company, r.role, r.duration, "Remote", r.description, Achievements(r.achievements), ColorFor(index))
  }

  /** `data.map((exp, index) => ...)`. */
  function Timeline(rows: seq<Row>): (es: seq<Entry>)
    ensures |es| == |rows|
    ensures forall i :: 0 <= i < |rows| ==> es[i] == ToEntry(rows[i], i)
  {
    seq(|rows|, i requires 0 <= i < |rows| => ToEntry(rows[i], i))
  }

  /** The list after the fetch: replaced only when rows came back. It starts empty. */
  function Fetched(data: Option<seq<Row>>, current: seq<Entry>): (es: seq<Entry>)
    ensures data.Some? && |data.value| > 0 ==> es == Timeline(data.value)
    ensures !(data.Some? && |data.value| > 0) ==> es == current
  {
    if data.Some? && |data.value| > 0 then Timeline(data.value) else current
  }

  /** The row the experience editor leaves in the table: it writes `period`, not `duration`. */
  function Stored(e: AdminExperience.Experience): (r: Row)
    ensures r.duration == None && r.period == Some(e.period)
  {
    Row(Some(e.company), Some(e.role), Some(e.period), None, Some(e.description), JsText.Text(e.achievements))
  }

  /** Whatever period is typed in the editor, the public timeline shows none. */
  lemma EditedPeriodNeverShown(items: seq<AdminExperience.Experience>, i: nat)
    requires i < |items|
    ensures Timeline(seq(|items|, k requires 0 <= k < |items| => Stored(items[k])))[i].period == None
  {
  }
}
