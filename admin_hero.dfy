/** The hero editor (app/admin/hero/page.tsx): a form over the single hero row. */
module AdminHero {
  import opened Opt
  import Store

  /** The columns of the hero row this page reads and writes. `updatedAt` is
      None when the page never wrote it (the insert path leaves it to the store). */
  datatype HeroRecord = HeroRecord(title: string, subtitle: string, yearsExperience: int, updatedAt: Option<string>)

  /** The three form fields. */
  datatype HeroForm = HeroForm(title: string, subtitle: string, years: int)

  /** The form before anything is loaded: `useState("")`, `useState("")`, `useState(13)`. */
  const InitialForm := HeroForm("", "", 13)

  /** `loadContent`: the form takes the row's three fields when `.single()`
      returns a row, and keeps its values otherwise. */
  function Loaded(rows: seq<Store.Row<HeroRecord>>, readOk: bool, form: HeroForm): (r: HeroForm)
    ensures readOk && |rows| == 1 ==>
              r == HeroForm(rows[0].data.title, rows[0].data.subtitle, rows[0].data.yearsExperience)
    ensures !(readOk && |rows| == 1) ==> r == form
  {
    var found := if readOk then Store.Single(rows) else None;
    if found.Some? then HeroForm(found.value.data.title, found.value.data.subtitle, found.value.data.yearsExperience)
    else form
  }

  /** The update `handleSave` sends when a row exists: the three fields and a fresh `updated_at`. */
  function Refreshed(form: HeroForm, now: string): (f: HeroRecord -> HeroRecord)
    ensures forall d :: f(d).updatedAt == Some(now) && f(d).title == form.title && f(d).subtitle == form.subtitle && f(d).yearsExperience == form.years
  {
    _ => HeroRecord(form.title, form.subtitle, form.years, Some(now))
  }

  /** The table after `handleSave`: `select("id").single()` decides between
      updating the row it found, by id, and inserting a new one. A failed read
      looks like "no row". `newId` is the id the store gives an inserted row. */
  function Saved(before: seq<Store.Row<HeroRecord>>, form: HeroForm, readOk: bool, writeOk: bool, now: string, newId: string): (r: seq<Store.Row<HeroRecord>>)
    ensures !writeOk ==> r == before
    ensures |before| <= |r| <= |before| + 1
    ensures forall i :: 0 <= i < |before| ==> r[i].id == before[i].id
  {
    var existing := if readOk then Store.Single(before) else None;
    if existing.Some? then
      (if writeOk then Store.Patched(before, existing.value.id, Refreshed(form, now)) else before)
    else
      before + if writeOk then [Store.Row(newId, HeroRecord(form.title, form.subtitle, form.years, None))] else []
  }

  /** With a row found, save rewrites that row in place: same id, the form's
      values, `updated_at` set, and no row added. */
  lemma UpdatePath(before: seq<Store.Row<HeroRecord>>, form: HeroForm, now: string, newId: string)
    requires |before| == 1
    ensures var after := Saved(before, form, true, true, now, newId);
            |after| == |before| && after[0].id == before[0].id
            && after[0].data == HeroRecord(form.title, form.subtitle, form.years, Some(now))
  {
  }

  /** With no row found, save inserts exactly one row holding the form's
      title, subtitle and years, without `updated_at`, and keeps the rest. */
  lemma InsertPath(before: seq<Store.Row<HeroRecord>>, form: HeroForm, readOk: bool, now: string, newId: string)
    requires !(readOk && |before| == 1)
    ensures var after := Saved(before, form, readOk, true, now, newId);
            |after| == |before| + 1 && after[..|before|] == before
            && after[|before|] == Store.Row(newId, HeroRecord(form.title, form.subtitle, form.years, None))
  {
  }

  /** `updated_at` is written on the update path only: a row that did not
      carry one before the save does not carry one after an insert. */
  lemma UpdatedAtOnlyOnUpdate(before: seq<Store.Row<HeroRecord>>, form: HeroForm, readOk: bool, writeOk: bool, now: string, newId: string, i: nat)
    requires i < |Saved(before, form, readOk, writeOk, now, newId)|
    ensures var after := Saved(before, form, readOk, writeOk, now, newId);
            after[i].data.updatedAt.Some? ==>
              (readOk && |before| == 1 && writeOk && after[i].data.updatedAt == Some(now))
              || (i < |before| && before[i].data.updatedAt == after[i].data.updatedAt)
  {
  }

  /** Saving into an empty or one-row table and loading again gives back the form. */
  lemma {:induction false} SaveThenLoad(before: seq<Store.Row<HeroRecord>>, form: HeroForm, other: HeroForm, now: string, newId: string)
    requires |before| <= 1
    ensures Loaded(Saved(before, form, true, true, now, newId), true, other) == form
  {
    var after := Saved(before, form, true, true, now, newId);
    if |before| == 1 {
      UpdatePath(before, form, now, newId);
    } else {
      InsertPath(before, form, true, now, newId);
    }
    assert |after| == 1;
  }

  /** The page's state: the three form fields and the spinner flags. */
  class Editor {
    var title: string
    var subtitle: string
    var years: int
    var isLoading: bool
    var isSaving: bool
    /** Where `router.push` sent the browser, once a save finished. */
    var navigatedTo: Option<string>

    function Form(): HeroForm
      reads this
    {
      HeroForm(title, subtitle, years)
    }

    constructor ()
      ensures Form() == InitialForm && isLoading && !isSaving && navigatedTo == None
    {
      title, subtitle, years := "", "", 13;
      isLoading, isSaving := true, false;
      navigatedTo := None;
    }

    /** `loadContent` against the table; `readOk` is whether the read went through. */
    method Load(table: Store.Table<HeroRecord>, readOk: bool)
      modifies this
      ensures Form() == Loaded(table.rows, readOk, old(Form()))
      ensures !isLoading && isSaving == old(isSaving) && navigatedTo == old(navigatedTo)
    {
      var data := if readOk then Store.Single(table.rows) else None;
      if data.Some? {
        title := data.value.data.title;
        subtitle := data.value.data.subtitle;
        years := data.value.data.yearsExperience;
      }
      isLoading := false;
    }

    /** The three input handlers: `setTitle`, `setSubtitle`, `setYears`. */
    method SetTitle(value: string)
      modifies this
      ensures Form() == old(Form()).(title := value)
      ensures isLoading == old(isLoading) && isSaving == old(isSaving) && navigatedTo == old(navigatedTo)
    {
      title := value;
    }

    method SetSubtitle(value: string)
      modifies this
      ensures Form() == old(Form()).(subtitle := value)
      ensures isLoading == old(isLoading) && isSaving == old(isSaving) && navigatedTo == old(navigatedTo)
    {
      subtitle := value;
    }

    method SetYears(value: int)
      modifies this
      ensures Form() == old(Form()).(years := value)
      ensures isLoading == old(isLoading) && isSaving == old(isSaving) && navigatedTo == old(navigatedTo)
    {
      years := value;
    }

    /** `handleSave`: read for an existing row, then update it by id or insert one. */
    method Save(table: Store.Table<HeroRecord>, readOk: bool, writeOk: bool, now: string, newId: string)
      modifies this, table
      ensures Form() == old(Form()) && isLoading == old(isLoading)
      ensures table.rows == Saved(old(table.rows), Form(), readOk, writeOk, now, newId)
      ensures !isSaving && navigatedTo == Some("/admin")
    {
      isSaving := true;
      var existing := if readOk then Store.Single(table.rows) else None;
      if existing.Some? {
        table.UpdateById(existing.value.id, Refreshed(Form(), now), writeOk);
      } else {
        table.Insert(HeroRecord(title, subtitle, years, None), if writeOk then Store.Inserted(newId) else Store.Rejected);
      }
      isSaving := false;
      navigatedTo := Some("/admin");
    }
  }
}
