/** The experience editor (app/admin/experience/page.tsx). */
module AdminExperience {
  import opened Opt
  import Lists
  import Store

  /** One row of the editor. `achievements` is the comma-joined text the user
      typed: it is stored as it is, not split. */
  datatype Experience = Experience(
    id: Option<string>,
    company: string,
    role: string,
    period: string,
    description: string,
    achievements: string)

  /** The fields the form edits with `updateExperience`. */
  datatype Field = Company | Role | Period | Description | Achievements

  function Get(e: Experience, f: Field): string {
    match f
    case Company => e.company
    case Role => e.role
    case Period => e.period
    case Description => e.description
    case Achievements => e.achievements
  }

  /** `{ ...e, [field]: value }`: the named field takes the value, no other field changes. */
  function With(e: Experience, f: Field, value: string): (r: Experience)
    ensures Get(r, f) == value
    ensures forall g :: g != f ==> Get(r, g) == Get(e, g)
    ensures r.id == e.id
  {
    match f
    case Company => e.(company := value)
    case Role => e.(role := value)
    case Period => e.(period := value)
    case Description => e.(description := value)
    case Achievements => e.(achievements := value)
  }

  /** The row `addExperience` appends: no id, every field empty. */
  function Blank(): (r: Experience)
    ensures r.id == None
    ensures forall f :: Get(r, f) == ""
  {
    Experience(None, "", "", "", "", "")
  }

  /** `const { id, ...expData } = exp`: what is inserted for a row. Every
      field, `achievements` included, is sent exactly as it is in the list. */
  function WithoutId(e: Experience): (r: Experience)
    ensures r.id == None
    ensures forall f :: Get(r, f) == Get(e, f)
  {
    e.(id := None)
  }

  /** After a save that fully went through, the table holds the list, in
      order, with the ids dropped and the achievements text unsplit. */
  lemma SaveStoresList(before: seq<Store.Row<Experience>>, items: seq<Experience>, outcomes: seq<Store.InsertOutcome>)
    requires |outcomes| == |items|
    requires forall i :: 0 <= i < |before| ==> before[i].id != Store.NilId
    requires Store.AllInserted(outcomes)
    ensures var stored := Store.Data(Store.Replaced(before, Lists.Map(WithoutId, items), true, outcomes));
            |stored| == |items|
            && forall i :: 0 <= i < |items| ==>
                 stored[i].id == None && stored[i].achievements == items[i].achievements
                 && forall f :: Get(stored[i], f) == Get(items[i], f)
  {
    Store.ReplacedExactly(before, Lists.Map(WithoutId, items), outcomes);
  }

  /** The page's state: the edited list and its two spinner flags. */
  class Editor {
    var experiences: seq<Experience>
    var isLoading: bool
    var isSaving: bool
    /** Where `router.push` sent the browser, once a save finished. */
    var navigatedTo: Option<string>

    constructor ()
      ensures experiences == [] && isLoading && !isSaving && navigatedTo == None
    {
      experiences := [];
      isLoading := true;
      isSaving := false;
      navigatedTo := None;
    }

    /** `loadContent`: `data` is what the ordered select returned (None when
        it returned no data). The list is replaced only when data came back;
        loading ends either way. */
    method Load(data: Option<seq<Experience>>)
      modifies this
      ensures experiences == if data.Some? then data.value else old(experiences)
      ensures !isLoading
      ensures isSaving == old(isSaving) && navigatedTo == old(navigatedTo)
    {
      if data.Some? {
        experiences := data.value;
      }
      isLoading := false;
    }

    /** `addExperience`: appends one blank row, the others unchanged. */
    method Add()
      modifies this
      ensures experiences == old(experiences) + [Blank()]
      ensures isLoading == old(isLoading) && isSaving == old(isSaving) && navigatedTo == old(navigatedTo)
    {
      experiences := experiences + [Blank()];
    }

    /** `removeExperience`: drops the row at `index`, the rest keep their order. */
    method Remove(index: int)
      modifies this
      ensures experiences == Lists.WithoutIndex(old(experiences), index)
      ensures isLoading == old(isLoading) && isSaving == old(isSaving) && navigatedTo == old(navigatedTo)
    {
      experiences := Lists.WithoutIndex(experiences, index);
    }

    /** `updateExperience`: one field of one row; every other row is unchanged. */
    method Update(index: nat, f: Field, value: string)
      requires index < |experiences|
      modifies this
      ensures experiences == old(experiences)[index := With(old(experiences)[index], f, value)]
      ensures isLoading == old(isLoading) && isSaving == old(isSaving) && navigatedTo == old(navigatedTo)
    {
      var updated := experiences;
      updated := updated[index := With(updated[index], f, value)];
      experiences := updated;
    }

    /** `handleSave`: deletes every row, then inserts each list row without
        its id, in list order; then leaves for the dashboard. */
    method Save(table: Store.Table<Experience>, deleteOk: bool, outcomes: seq<Store.InsertOutcome>)
      requires |outcomes| == |experiences|
      modifies this, table
      ensures experiences == old(experiences) && isLoading == old(isLoading)
      ensures table.rows == Store.Replaced(old(table.rows), Lists.Map(WithoutId, experiences), deleteOk, outcomes)
      ensures !isSaving && navigatedTo == Some("/admin")
    {
      isSaving := true;
      Store.SaveAll(table, experiences, WithoutId, deleteOk, outcomes);
      isSaving := false;
      navigatedTo := Some("/admin");
    }
  }
}
