/** The public about section (components/about.tsx): the fetched bio and
    portrait merged over built-in defaults. */
module AboutView {
  import opened Opt
  import JsText
  import Store
  import AdminAbout

  /** What the section shows: `bio` and `imageUrl`. */
  datatype AboutContent = AboutContent(bio: string, imageUrl: string)

  const DefaultBio := "With over 13 years of experience in UI/UX design, I've dedicated my career to creating digital products that are not just beautiful, but meaningful and intuitive. My approach blends strategic thinking with creative execution."
  const DefaultImage := "/professional-designer-portrait.png"

  /** The content before the fetch answers. */
  const Defaults := AboutContent(DefaultBio, DefaultImage)

  /** `fetchAboutContent`: a row returned by `.single()` always sets the bio,
      and sets the image only when its `image_url` is truthy; without a row
      nothing changes. */
  function Fetched(rows: seq<Store.Row<AdminAbout.AboutRecord>>, readOk: bool, current: AboutContent): (c: AboutContent)
    ensures readOk && |rows| == 1 ==> c.bio == rows[0].data.bio
    ensures readOk && |rows| == 1 && JsText.Truthy(rows[0].data.imageUrl) ==> c.imageUrl == rows[0].data.imageUrl.value
    ensures readOk && |rows| == 1 && !JsText.Truthy(rows[0].data.imageUrl) ==> c.imageUrl == current.imageUrl
    ensures !(readOk && |rows| == 1) ==> c == current
  {
    var data := if readOk then Store.Single(rows) else None;
    if data.Some? then
      AboutContent(data.value.data.bio, if JsText.Truthy(data.value.data.imageUrl) then data.value.data.imageUrl.value else current.imageUrl)
    else current
  }

  /** After the about editor saves into an empty or one-row table, the
      section shows the saved bio, and the saved image unless it was left
      empty, in which case the default portrait stays. */
  lemma {:induction false} SavedAboutShown(before: seq<Store.Row<AdminAbout.AboutRecord>>, form: AdminAbout.AboutForm, now: string, newId: string)
    requires |before| <= 1
    ensures var shown := Fetched(AdminAbout.Saved(before, form, true, true, now, newId), true, Defaults);
            shown.bio == form.bio
            && shown.imageUrl == if form.imageUrl != "" then form.imageUrl else DefaultImage
  {
    var after := AdminAbout.Saved(before, form, true, true, now, newId);
    if |before| == 1 {
      AdminAbout.UpdatePath(before, form, now, newId);
    } else {
      AdminAbout.InsertPath(before, form, true, now, newId);
    }
    assert |after| == 1 && after[0].data.imageUrl == Some(form.imageUrl);
  }
}
