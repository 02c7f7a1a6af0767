/** The about editor (app/admin/about/page.tsx): a form over the single about row. */
module AdminAbout {
  import opened Opt
  import JsText
  import Store

  /** The columns of the about row this page reads and writes. The image
      column may be null in the store; the page itself always writes a string. */
  datatype AboutRecord = AboutRecord(bio: string, imageUrl: Option<string>, updatedAt: Option<string>)

  /** The two form fields. */
  datatype AboutForm = AboutForm(bio: string, imageUrl: string)

  /** The form before anything is loaded: both fields `useState("")`. */
  const InitialForm := AboutForm("", "")

  /** `loadContent`: when `.single()` returns a row the bio is copied and the
      image becomes `image_url || ""`; otherwise the form keeps its values. */
  function Loaded(rows: seq<Store.Row<AboutRecord>>, readOk: bool, form: AboutForm): (r: AboutForm)
    ensures readOk && |rows| == 1 ==>
              r.bio == rows[0].data.bio
              && (JsText.Truthy(rows[0].data.imageUrl) ==> r.imageUrl == rows[0].data.imageUrl.value)
              && (!JsText.Truthy(rows[0].data.imageUrl) ==> r.imageUrl == "")
    ensures !(readOk && |rows| == 1) ==> r == form
  {
    var found := if readOk then Store.Single(rows) else None;
    if found.Some? then AboutForm(found.value.data.bio, JsText.Or(found.value.data.imageUrl, ""))
    else form
  }

  /** The update `handleSave` sends when a row exists: both fields and a fresh `updated_at`. */
  function Refreshed(form: AboutForm, now: string): (f: AboutRecord -> AboutRecord)
    ensures forall d :: f(d).updatedAt == Some(now) && f(d).bio == form.bio && f(d).imageUrl == Some(form.imageUrl)
  {
    _ => AboutRecord(form.bio, Some(form.imageUrl), Some(now))
  }

  /** The table after `handleSave`: update the row `select("id").single()`
      found, by id, or insert a new one when it found none. */
  function Saved(before: seq<Store.Row<AboutRecord>>, form: AboutForm, readOk: bool, writeOk: bool, now: string, newId: string): (r: seq<Store.Row<AboutRecord>>)
    ensures !writeOk ==> r == before
    ensures |before| <= |r| <= |before| + 1
    ensures forall i :: 0 <= i < |before| ==> r[i].id == before[i].id
  {
    var existing := if readOk then Store.Single(before) else None;
    if existing.Some? then
      (if writeOk then Store.Patched(before, existing.value.id, Refreshed(form, now)) else before)
    else
      before + if writeOk then [Store.Row(newId, AboutRecord(form.bio, Some(form.imageUrl), None))] else []
  }

  /** With a row found, save rewrites it in place: same id, the form's
      values, `updated_at` set, and no row added. */
  lemma UpdatePath(before: seq<Store.Row<AboutRecord>>, form: AboutForm, now: string, newId: string)
    requires |before| == 1
    ensures var after := Saved(before, form, true, true, now, newId);
            |after| == 1 && after[0].id == before[0].id
            && after[0].data == AboutRecord(form.bio, Some(form.imageUrl), Some(now))
  {
  }

  /** With no row found, save appends exactly one row with the form's values and no `updated_at`. */
  lemma InsertPath(before: seq<Store.Row<AboutRecord>>, form: AboutForm, readOk: bool, now: string, newId: string)
    requires !(readOk && |before| == 1)
    ensures var after := Saved(before, form, readOk, true, now, newId);
            |after| == |before| + 1 && after[..|before|] == before
            && after[|before|] == Store.Row(newId, AboutRecord(form.bio, Some(form.imageUrl), None))
  {
  }

  /** Saving into an empty or one-row table and loading again gives back the form. */
  lemma {:induction false} SaveThenLoad(before: seq<Store.Row<AboutRecord>>, form: AboutForm, other: AboutForm, now: string, newId: string)
    requires |before| <= 1
    ensures Loaded(Saved(before, form, true, true, now, newId), true, other) == form
  {
    var after := Saved(before, form, true, true, now, newId);
    if |before| == 1 {
      UpdatePath(before, form, now, newId);
    } else {
      InsertPath(before, form, true, now, newId);
    }
    assert |after| == 1;
  }

  /** A null image column does not survive an edit: loading shows it as ""
      and the next save writes "" where null was. */
  lemma NullImageSavedAsEmpty(row: Store.Row<AboutRecord>, other: AboutForm, now: string, newId: string)
    requires row.data.imageUrl == None
    ensures var form := Loaded([row], true, other);
            form.imageUrl == ""
            && Saved([row], form, true, true, now, newId)[0].data.imageUrl == Some("")
  {
    UpdatePath([row], Loaded([row], true, other), now, newId);
  }

  /** The page's state: the two form fields and the spinner flags. */
  class Editor {
    var bio: string
    var imageUrl: string
    var isLoading: bool
    var isSaving: bool
    /** Where `router.push` sent the browser, once a save finished. */
    var navigatedTo: Option<string>

    function Form(): AboutForm
      reads this
    {
      AboutForm(bio, imageUrl)
    }

    constructor ()
      ensures Form() == InitialForm && isLoading && !isSaving && navigatedTo == None
    {
      bio, imageUrl := "", "";
      isLoading, isSaving := true, false;
      navigatedTo := None;
    }

    /** `loadContent` against the table; `readOk` is whether the read went through. */
    method Load(table: Store.Table<AboutRecord>, readOk: bool)
      modifies this
      ensures Form() == Loaded(table.rows, readOk, old(Form()))
      ensures !isLoading && isSaving == old(isSaving) && navigatedTo == old(navigatedTo)
    {
      var data := if readOk then Store.Single(table.rows) else None;
      if data.Some? {
        bio := data.value.data.bio;
        imageUrl := JsText.Or(data.value.data.imageUrl, "");
      }
      isLoading := false;
    }

    /** The bio text area's handler. */
    method SetBio(value: string)
      modifies this
      ensures Form() == old(Form()).(bio := value)
      ensures isLoading == old(isLoading) && isSaving == old(isSaving) && navigatedTo == old(navigatedTo)
    {
      bio := value;
    }

    /** `setImageUrl`, the callback handed to the image upload widget. */
    method SetImageUrl(value: string)
      modifies this
      ensures Form() == old(Form()).(imageUrl := value)
      ensures isLoading == old(isLoading) && isSaving == old(isSaving) && navigatedTo == old(navigatedTo)
    {
      imageUrl := value;
    }

    /** `handleSave`: read for an existing row, then update it by id or insert one. */
    method Save(table: Store.Table<AboutRecord>, readOk: bool, writeOk: bool, now: string, newId: string)
      modifies this, table
      ensures Form() == old(Form()) && isLoading == old(isLoading)
      ensures table.rows == Saved(old(table.rows), Form(), readOk, writeOk, now, newId)
      ensures !isSaving && navigatedTo == Some("/admin")
    {
      isSaving := true;
      var existing := if readOk then Store.Single(table.rows) else None;
      if existing.Some? {
        table.UpdateById(existing.value.id, Refreshed(Form(), now), writeOk);
      } else {
        table.Insert(AboutRecord(bio, Some(imageUrl), None), if writeOk then Store.Inserted(newId) else Store.Rejected);
      }
      isSaving := false;
      navigatedTo := Some("/admin");
    }
  }
}
