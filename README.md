# Portfolio site: admin editors and public sections, modelled in Dafny

The site is a designer's portfolio. Its public page is built from sections
that read rows from a hosted table store:

- a hero with a contrast mini-game;
- an about block;
- case-study cards;
- an experience timeline;
- skill stickers grouped by category;
- testimonial envelopes;
- a folder of brand logos.

Each section has an admin editor. A request gate keeps the editors behind a
sign-in.

This project models the logic of those pieces. Every network answer becomes
a parameter of the model: whether a delete, read or write went through, the
id the store gives a new row, and what a user lookup returned. The modules
are:

- **`Store`**: the table, as a sequence of rows `Row(id, data)`. The class
  `Store.Table` holds the rows. Its methods are
  - the editors' "delete every row" (`.neq("id", <nil uuid>)`, so a row with
    the nil id survives);
  - `insert`;
  - `update … eq("id", …)`.

  `Store.Single` models `.single()`, which returns a row only when the table
  holds exactly one. `Store.SaveAll` is the save loop every collection editor
  shares: delete, then insert each prepared item in order.
- **`AdminExperience`, `AdminTestimonials`, `AdminSkills`, `AdminBrands`,
  `AdminProjects`**: the collection editors. Each is a class holding the
  edited list, with load, add, remove-by-filter, update-one-field and save
  methods.
  - The projects editor also moves projects up and down and renumbers
    `order_index` by position. It edits three nested lists and typography.
  - Its save normalises metrics, tags and defaults (`AdminProjects.Normalised`).
- **`AdminHero`, `AdminAbout`**: the single-row editors. A load fills the
  form. A save reads the row id, then either updates that row by id (stamping
  `updated_at`) or inserts a new row.
- **`CaseStudies`, `ExperienceView`, `TestimonialsView`, `SkillsView`,
  `BrandsView`, `HeroView`, `AboutView`**: the public sections. Each maps rows
  to what is shown, with the code's defaults and fallbacks.
  - `SkillsView` reproduces the JavaScript object the grouping `reduce`
    builds. Array-index keys are listed first in ascending order, then the
    other keys in insertion order. A category named like an
    `Object.prototype` member makes the reduce throw.
  - `HeroView.Game` is the contrast game's state. The ratio is kept in
    integer tenths.
- **`Selection`**: the one-open-card toggle shared by the timeline and the
  envelopes.
- **`Middleware`**: the request gate's decision and the client it builds.
- **`ImageUpload`**: the upload control.
  - The file extension and object path are derived from the file name.
  - The storage call is an oracle, and the random name is a parameter.
  - The busy flag, the `onChange` emissions and the alerts are fields of a
    class.
- **`JsText`, `Lists`, `Opt`**: the JavaScript semantics the code relies on.
  - `JsText`: `split` on one character, `join`, `trim` over the ECMAScript
    white-space set, truthiness, the `string | string[] | other` columns, and
    UTF-16 code units.
  - `Lists`: `filter` by index, `splice(i, 1)` with negative starts, `map`,
    and a swap.
  - `Opt`: `||`/`??` defaults.

Cross-file facts are modelled as the code has them:

- The experience editor writes `period` while the timeline reads `duration`,
  so an edited period is never shown (`ExperienceView.EditedPeriodNeverShown`).
- The projects editor saves array tags as `[]`, so re-saving a loaded project
  erases its tags (`AdminProjects.ResaveErasesTags`).
- The cards keep empty metrics that the editor would have dropped
  (`CaseStudies.EmptyMetricKeptOnlyPublicly`).
- Two brands with the same name make the "items spilled" counter disagree
  with what is visible (`BrandsView.DuplicateNameMiscount`).

## Model

| member | source | states |
|---|---|---|
| Store.Survivors | app/admin/experience/page.tsx:48 | the rows a delete-all leaves are exactly the old rows carrying the nil id; with no such row, none survive |
| Store.Data | app/admin/experience/page.tsx:49-53 | the column values of the rows, one per row, in table order |
| Store.WrittenAll | app/admin/experience/page.tsx:50-53 | when every insert is accepted, the inserted rows carry the payloads in list order |
| Store.WrittenStep | app/admin/experience/page.tsx:50-53 | one more insert adds its row after those already written, or nothing if it was rejected |
| Store.Written | app/admin/experience/page.tsx:50-53 | the rows the inserts add are never more than the payloads sent |
| Store.DataAppend | app/admin/experience/page.tsx:50-53 | the columns of two row lists put together are the two column lists put together |
| Store.Replaced | app/admin/experience/page.tsx:47-53 | at most the old rows plus the payloads; a failed delete keeps the old rows in front, a successful one keeps only nil-id rows in front; the accepted inserts come last |
| Store.ReplacedExactly | app/admin/experience/page.tsx:47-53 | a save whose delete and inserts all succeed, over rows none of which has the nil id, leaves exactly the saved list in order |
| Store.FailedDeleteKeepsOldRows | app/admin/experience/page.tsx:48-53 | when the delete fails every old row stays and the new rows follow them |
| Store.Patched | app/admin/hero/page.tsx:49-52 | update-by-id changes the data of the rows with that id and nothing else; ids and count unchanged |
| Store.Single | app/admin/hero/page.tsx:43-46 | `.single()` yields a row exactly when the table holds one row, and then that row |
| Store.Table.constructor | app/admin/experience/page.tsx:47-53 | the table starts with the given rows |
| Store.Table.DeleteAll | app/admin/experience/page.tsx:48 | the table becomes the survivors when the call goes through, else stays |
| Store.Table.Insert | app/admin/experience/page.tsx:52 | an accepted insert appends one row with the store's id |
| Store.Table.UpdateById | app/admin/hero/page.tsx:49-52 | the table becomes the patched rows when the call goes through |
| Store.SaveAll | app/admin/experience/page.tsx:44-57 | delete, then insert each prepared item in order: the table ends as the survivors followed by the accepted inserts |
| Lists.WithoutIndex | app/admin/experience/page.tsx:63-65 | filtering out index i removes exactly that element and keeps the order; an index out of range changes nothing |
| Lists.SpliceOne | app/admin/projects/page.tsx:163-169 | `splice(i, 1)` removes the element at the normalised start, the same as filtering that index out |
| Lists.SpliceStart | app/admin/projects/page.tsx:166 | a negative start counts from the end and is clamped to 0; a start past the end means nothing is removed |
| Lists.Swap | app/admin/projects/page.tsx:182 | the two elements trade places, nothing else moves, the multiset is unchanged |
| Lists.Map | app/admin/experience/page.tsx:50-53 | one image per element, in order |
| Lists.DistinctCard | components/brands.tsx:23-27 | a list has no repeats exactly when it has as many elements as its set |
| Lists.DistinctPermutation | components/skills.tsx:34 | a permutation of a list with no repeats has no repeats |
| Lists.DistinctCons | components/brands.tsx:24-25 | an element not in a repeat-free list can be put in front of it |
| JsText.Split | components/experience.tsx:26 | `split` yields at least one part, no part holds the separator, and joining the parts gives the string back |
| JsText.SplitJoin | components/experience.tsx:26 | splitting the join of separator-free parts gives the parts back |
| JsText.SplitNoSeparator | components/experience.tsx:26 | a string without the separator splits into itself |
| JsText.SplitPrefix | components/experience.tsx:26 | a separator-free prefix is glued to the first part of what follows |
| JsText.JoinConsChar | components/experience.tsx:26 | a character put before the first part is put before the join |
| JsText.JoinSnoc | components/admin/image-upload.tsx:34 | the last part of a join with two or more parts follows the separator that ends the join of the others |
| JsText.TrimStart | components/experience.tsx:26 | only leading ECMAScript white space is removed, and the result does not start with it |
| JsText.TrimEnd | components/experience.tsx:26 | only trailing white space is removed, and the result does not end with it |
| JsText.Trim | components/experience.tsx:26 | the result is a slice of the input with only white space cut on either side, neither end white |
| JsText.TrimIdempotent | app/admin/projects/page.tsx:100 | trimming twice is trimming once |
| JsText.TrimUntouched | components/experience.tsx:26 | a string with no white space at either end is its own trim |
| JsText.TrimAll | components/experience.tsx:26 | `map(x => x.trim())`: each part trimmed, same length |
| JsText.Compact | app/admin/projects/page.tsx:100 | `filter(x => x)`: exactly the non-empty strings, in order |
| JsText.SplitTrim | components/case-studies.tsx:120 | one trimmed piece per split part |
| JsText.CodeUnits | components/skills.tsx:47 | the UTF-16 code units of a character; a surrogate pair decodes back to it |
| AdminExperience.With | app/admin/experience/page.tsx:67-71 | the named field takes the value, no other field and not the id changes |
| AdminExperience.Blank | app/admin/experience/page.tsx:59-61 | the added row has no id and every field empty |
| AdminExperience.WithoutId | app/admin/experience/page.tsx:51 | the insert payload drops the id and keeps every field, achievements unsplit |
| AdminExperience.SaveStoresList | app/admin/experience/page.tsx:44-57 | after a fully successful save the table holds the list in order, ids dropped, achievements text as typed |
| AdminExperience.Editor.constructor | app/admin/experience/page.tsx:22-24 | no rows, loading, not saving, not navigated |
| AdminExperience.Editor.Load | app/admin/experience/page.tsx:32-42 | the list is replaced only when data came back; loading ends either way |
| AdminExperience.Editor.Add | app/admin/experience/page.tsx:59-61 | one blank row appended |
| AdminExperience.Editor.Remove | app/admin/experience/page.tsx:63-65 | the row at the index filtered out |
| AdminExperience.Editor.Update | app/admin/experience/page.tsx:67-71 | one field of one row replaced, every other row unchanged |
| AdminExperience.Editor.Save | app/admin/experience/page.tsx:44-57 | the table ends as delete-then-insert of the list without ids; list unchanged; navigates to /admin |
| AdminTestimonials.With | app/admin/testimonials/page.tsx:66-70 | the named field takes the value, no other field and not the id changes |
| AdminTestimonials.Blank | app/admin/testimonials/page.tsx:58-60 | the added testimonial has no id and every field empty |
| AdminTestimonials.WithoutId | app/admin/testimonials/page.tsx:50 | the insert payload drops the id and keeps every field |
| AdminTestimonials.Editor.constructor | app/admin/testimonials/page.tsx:21-23 | no testimonials, loading, not saving, not navigated |
| AdminTestimonials.Editor.Load | app/admin/testimonials/page.tsx:31-41 | the list is replaced only when data came back; loading ends |
| AdminTestimonials.Editor.Add | app/admin/testimonials/page.tsx:58-60 | one blank testimonial appended |
| AdminTestimonials.Editor.Remove | app/admin/testimonials/page.tsx:62-64 | the testimonial at the index filtered out |
| AdminTestimonials.Editor.Update | app/admin/testimonials/page.tsx:66-70 | one field of one testimonial replaced |
| AdminTestimonials.Editor.Save | app/admin/testimonials/page.tsx:43-56 | delete-then-insert of the list without ids; navigates to /admin |
| AdminSkills.With | app/admin/skills/page.tsx:63-67 | the named field takes the value, no other field and not the id changes |
| AdminSkills.Blank | app/admin/skills/page.tsx:55-57 | the added skill has no id, an empty name and category "Design" |
| AdminSkills.WithoutId | app/admin/skills/page.tsx:47 | the insert payload drops the id and keeps name and category |
| AdminSkills.Editor.constructor | app/admin/skills/page.tsx:18-20 | no skills, loading, not saving, not navigated |
| AdminSkills.Editor.Load | app/admin/skills/page.tsx:28-38 | the list is replaced only when data came back; loading ends |
| AdminSkills.Editor.Add | app/admin/skills/page.tsx:55-57 | one blank skill appended |
| AdminSkills.Editor.Remove | app/admin/skills/page.tsx:59-61 | the skill at the index filtered out |
| AdminSkills.Editor.Update | app/admin/skills/page.tsx:63-67 | one field of one skill replaced |
| AdminSkills.Editor.Save | app/admin/skills/page.tsx:40-53 | delete-then-insert of the list without ids; navigates to /admin |
| AdminBrands.With | app/admin/brands/page.tsx:64-68 | the named field takes the value, no other field and not the id changes |
| AdminBrands.Blank | app/admin/brands/page.tsx:56-58 | the added brand has no id and empty name and logo |
| AdminBrands.WithoutId | app/admin/brands/page.tsx:48 | the insert payload drops the id and keeps name and logo |
| AdminBrands.Editor.constructor | app/admin/brands/page.tsx:19-21 | no brands, loading, not saving, not navigated |
| AdminBrands.Editor.Load | app/admin/brands/page.tsx:29-39 | the list is replaced only when data came back; loading ends |
| AdminBrands.Editor.Add | app/admin/brands/page.tsx:56-58 | one blank brand appended |
| AdminBrands.Editor.Remove | app/admin/brands/page.tsx:60-62 | the brand at the index filtered out |
| AdminBrands.Editor.Update | app/admin/brands/page.tsx:64-68 | one field of one brand replaced |
| AdminBrands.Editor.Save | app/admin/brands/page.tsx:41-54 | delete-then-insert of the list without ids; navigates to /admin |
| AdminProjects.With | app/admin/projects/page.tsx:149-153 | the slot takes the value, every other slot and the id are unchanged |
| AdminProjects.GetFits | app/admin/projects/page.tsx:40-65 | what a slot holds has the slot's declared type |
| AdminProjects.NewProject | app/admin/projects/page.tsx:125-143 | the added project: no id, order index = list length, "Featured Work", not a draft, empty nested lists and typography, the default gradient, empty metrics and tags text |
| AdminProjects.WithVisual | app/admin/projects/page.tsx:171-177 | one field of a visual replaced, the others kept |
| AdminProjects.WithSwatch | app/admin/projects/page.tsx:211-217 | one field of a swatch replaced, the others kept |
| AdminProjects.WithComparison | app/admin/projects/page.tsx:235-241 | one field of a comparison replaced, the others kept |
| AdminProjects.WithFont | app/admin/projects/page.tsx:586-620 | one typography entry set over the old block (an absent block spreads as `{}`), the other entries kept |
| AdminProjects.CommaItemsFacts | app/admin/projects/page.tsx:99-105 | the split items are exactly the non-empty trimmed comma pieces, each already trimmed |
| AdminProjects.Normalised | app/admin/projects/page.tsx:96-118 | the inserted row has no id, no text metrics, array tags, a non-empty category, and every defaulted column set |
| AdminProjects.SavedMetrics | app/admin/projects/page.tsx:99-101 | text metrics are saved as their non-empty trimmed items; array or absent metrics pass through |
| AdminProjects.SavedTags | app/admin/projects/page.tsx:103-105 | only non-empty text tags are split; empty text, arrays and absent tags are saved as [] |
| AdminProjects.SavedDefaults | app/admin/projects/page.tsx:97-117 | id dropped; falsy category becomes "Featured Work", missing order 0, missing lists [], typography {}, draft false unless true |
| AdminProjects.SavedKeepsOtherSlots | app/admin/projects/page.tsx:107-108 | every slot save does not normalise is inserted as it was |
| AdminProjects.ResaveKeepsMetrics | app/admin/projects/page.tsx:99-101 | saving a saved project again keeps its metrics |
| AdminProjects.ResaveErasesTags | app/admin/projects/page.tsx:103-105 | saving a saved (array-tagged) project again erases its tags |
| AdminProjects.NewProjectSaved | app/admin/projects/page.tsx:125-143 | a fresh project is saved with no metrics, no tags, its position and not a draft |
| AdminProjects.SaveStoresList | app/admin/projects/page.tsx:90-123 | after a fully successful save the table holds the normalised list in order |
| AdminProjects.Renumber | app/admin/projects/page.tsx:183 | each project's order index becomes its position, nothing else changes |
| AdminProjects.RenumberedSlots | app/admin/projects/page.tsx:183 | renumbering changes only the order index, which then equals the position |
| AdminProjects.MovePermutes | app/admin/projects/page.tsx:179-193 | up to order indices a move is exactly the swap of two projects, a permutation of the list |
| AdminProjects.Editor.constructor | app/admin/projects/page.tsx:68-70 | no projects, loading, not saving, not navigated |
| AdminProjects.Editor.Load | app/admin/projects/page.tsx:78-88 | the list is replaced only when data came back; loading ends |
| AdminProjects.Editor.Add | app/admin/projects/page.tsx:125-143 | the new project appended, numbered with the old length |
| AdminProjects.Editor.Remove | app/admin/projects/page.tsx:145-147 | the project at the index filtered out |
| AdminProjects.Editor.Update | app/admin/projects/page.tsx:149-153 | one slot of one project replaced |
| AdminProjects.Editor.MoveUp | app/admin/projects/page.tsx:179-185 | a no-op at index 0; otherwise swap with the one above and renumber everything |
| AdminProjects.Editor.MoveDown | app/admin/projects/page.tsx:187-193 | a no-op at the last index; otherwise swap with the one below and renumber |
| AdminProjects.Editor.AddVisual | app/admin/projects/page.tsx:155-161 | a blank web visual pushed onto that project's list (an absent list counts as []) |
| AdminProjects.Editor.RemoveVisual | app/admin/projects/page.tsx:163-169 | `splice(vi, 1)` on that project's visuals |
| AdminProjects.Editor.UpdateVisual | app/admin/projects/page.tsx:171-177 | one field of one visual of one project replaced |
| AdminProjects.Editor.AddSwatch | app/admin/projects/page.tsx:195-201 | a "#000000" swatch pushed onto that project's palette |
| AdminProjects.Editor.RemoveSwatch | app/admin/projects/page.tsx:203-209 | `splice(si, 1)` on that project's palette |
| AdminProjects.Editor.UpdateSwatch | app/admin/projects/page.tsx:211-217 | one field of one swatch replaced |
| AdminProjects.Editor.AddComparison | app/admin/projects/page.tsx:219-225 | a blank "design" comparison pushed onto that project's list |
| AdminProjects.Editor.RemoveComparison | app/admin/projects/page.tsx:227-233 | `splice(ci, 1)` on that project's comparisons |
| AdminProjects.Editor.UpdateComparison | app/admin/projects/page.tsx:235-241 | one field of one comparison replaced |
| AdminProjects.Editor.Save | app/admin/projects/page.tsx:90-123 | delete-then-insert of every project normalised, in order; navigates to /admin |
| AdminHero.Refreshed | app/admin/hero/page.tsx:48-52 | the update sets `updated_at` to now and the form's three values, whatever the row held |
| AdminHero.Saved | app/admin/hero/page.tsx:39-61 | a failed write changes nothing; a save adds at most one row and keeps every existing id |
| AdminHero.Loaded | app/admin/hero/page.tsx:25-37 | the form takes the row's title, subtitle and years when `.single()` returns a row, and is kept otherwise |
| AdminHero.UpdatePath | app/admin/hero/page.tsx:43-52 | with one row present, save rewrites that row in place: same id, the form's values, `updated_at` set, count unchanged |
| AdminHero.InsertPath | app/admin/hero/page.tsx:53-57 | with no single row, save appends exactly one row with title, subtitle and years and no `updated_at` |
| AdminHero.UpdatedAtOnlyOnUpdate | app/admin/hero/page.tsx:48-57 | a save stamps `updated_at` only on the update path |
| AdminHero.SaveThenLoad | app/admin/hero/page.tsx:25-57 | saving into an empty or one-row table and loading gives the form back |
| AdminHero.Editor.constructor | app/admin/hero/page.tsx:13-17 | the form starts as "", "", 13, loading |
| AdminHero.Editor.Load | app/admin/hero/page.tsx:25-37 | the form becomes `Loaded` of the table; loading ends |
| AdminHero.Editor.SetTitle | app/admin/hero/page.tsx:84 | only the title changes |
| AdminHero.Editor.SetSubtitle | app/admin/hero/page.tsx:95 | only the subtitle changes |
| AdminHero.Editor.SetYears | app/admin/hero/page.tsx:107 | only the years change |
| AdminHero.Editor.Save | app/admin/hero/page.tsx:39-61 | the table ends as `Saved` of the form; navigates to /admin |
| AdminAbout.Refreshed | app/admin/about/page.tsx:46-54 | the update sets `updated_at` to now and the form's bio and image, whatever the row held |
| AdminAbout.Saved | app/admin/about/page.tsx:37-66 | a failed write changes nothing; a save adds at most one row and keeps every existing id |
| AdminAbout.Loaded | app/admin/about/page.tsx:24-35 | with a row the bio is copied and the image becomes `image_url` or "" when falsy; without one the form is kept |
| AdminAbout.UpdatePath | app/admin/about/page.tsx:46-54 | with one row present, save rewrites bio, image and `updated_at` on that id; count unchanged |
| AdminAbout.InsertPath | app/admin/about/page.tsx:55-62 | with no single row, save appends one row with bio and image and no `updated_at` |
| AdminAbout.SaveThenLoad | app/admin/about/page.tsx:24-62 | after a save the single row carries the form's bio and image, and loading gives the form back |
| AdminAbout.NullImageSavedAsEmpty | app/admin/about/page.tsx:32-54 | a null image column is loaded as "" and the next save writes "" |
| AdminAbout.Editor.constructor | app/admin/about/page.tsx:13-16 | the form starts as "", "", loading |
| AdminAbout.Editor.Load | app/admin/about/page.tsx:24-35 | the form becomes `Loaded` of the table; loading ends |
| AdminAbout.Editor.SetBio | app/admin/about/page.tsx:97 | only the bio changes |
| AdminAbout.Editor.SetImageUrl | app/admin/about/page.tsx:87 | only the image changes |
| AdminAbout.Editor.Save | app/admin/about/page.tsx:37-66 | the table ends as `Saved` of the form; navigates to /admin |
| CaseStudies.SizeClass | components/case-studies.tsx:122-129 | positions 0, 2 and 4 get their special grid sizes, every other position the 1x1 size |
| CaseStudies.PlaceholdersFollowLayout | components/case-studies.tsx:8-67 | the five placeholder cards use the gradient and the size of their position and have no image |
| CaseStudies.CardMetrics | components/case-studies.tsx:117-121 | array metrics as they are, text split on "," and trimmed (nothing filtered), anything else none |
| CaseStudies.ToCard | components/case-studies.tsx:109-130 | id and image copied; falsy title, description and category get their fallbacks; a falsy gradient becomes `GRADIENTS[index mod 5]`; an image shown iff `image_url` is truthy |
| CaseStudies.Cards | components/case-studies.tsx:108-110 | same length and order as the rows, each card mapped at its own index |
| CaseStudies.GradientCycle | components/case-studies.tsx:61-115 | gradient-less rows five positions apart get the same gradient |
| CaseStudies.Fetched | components/case-studies.tsx:74-147 | the mapped rows replace the placeholders only when the mounted query answered with rows; loading ends when mounted or unconfigured |
| CaseStudies.ShowsImageIffImageUrl | components/case-studies.tsx:116-213 | a card shows its image exactly when the row's `image_url` is truthy |
| CaseStudies.ShowsImage | components/case-studies.tsx:213 | a photo is shown only for a card that has one with a non-empty address |
| CaseStudies.Backdrop | components/case-studies.tsx:225 | the background class is never empty and is the card's gradient whenever that is set |
| CaseStudies.CardBackdrop | components/case-studies.tsx:109-225 | a card built from a row always shows its own gradient: the row's when truthy, else its position's palette entry; the pink default never applies |
| CaseStudies.ShownMetrics | components/case-studies.tsx:267 | a card lists the first three metrics at most |
| CaseStudies.SplitSample | components/case-studies.tsx:120 | `"a,,b".split(",")` is ["a", "", "b"] |
| CaseStudies.SplitTrimSample | components/case-studies.tsx:120 | `"a,,b".split(",").map(trim)` is ["a", "", "b"] |
| CaseStudies.CompactSample | app/admin/projects/page.tsx:100 | filtering ["a", "", "b"] for truthy items gives ["a", "b"] |
| CaseStudies.EmptyMetricKeptOnlyPublicly | components/case-studies.tsx:117-121 | the card keeps an empty metric that the editor's save would drop |
| CaseStudies.SavedProjectHasNoEmptyMetric | app/admin/projects/page.tsx:99-101 | a project saved from text metrics shows no empty metric |
| ExperienceView.ColorFor | components/experience.tsx:28 | position 0 accent, 1 primary, any later one secondary |
| ExperienceView.Achievements | components/experience.tsx:23-27 | an array as it is, text split on "," and trimmed, anything else none |
| ExperienceView.AchievementsFromText | components/experience.tsx:23-27 | comma-joined items come back as those items, trimmed |
| ExperienceView.ToEntry | components/experience.tsx:17-29 | company, role and description copied, period from `duration`, location "Remote", colour by position |
| ExperienceView.Timeline | components/experience.tsx:17 | one entry per row, same order, each at its own index |
| ExperienceView.Fetched | components/experience.tsx:14-31 | a non-empty answer replaces the timeline with its mapping; otherwise it is kept |
| ExperienceView.Stored | app/admin/experience/page.tsx:51-52 | the editor writes `period` and no `duration` |
| ExperienceView.EditedPeriodNeverShown | components/experience.tsx:20 | whatever period the editor saved, the timeline shows none |
| Selection.Toggle | components/experience.tsx:79 | clicking the open card closes it; clicking any other makes it the only open one |
| Selection.AtMostOneOpen | components/testimonials.tsx:43 | after a click at most one card is open, the clicked one |
| Selection.ClickFlipsClicked | components/experience.tsx:79 | a click flips the clicked card and closes every other, the previously open one included |
| Selection.ClickTwiceCloses | components/testimonials.tsx:43 | two clicks on one card return it to its old state and close the others |
| TestimonialsView.ToCard | components/testimonials.tsx:16-21 | quote from content, author from name, role and company as they are |
| TestimonialsView.Cards | components/testimonials.tsx:16 | one card per row, same order |
| TestimonialsView.Fetched | components/testimonials.tsx:13-23 | a non-empty answer replaces the cards with its mapping; otherwise they are kept |
| TestimonialsView.ShowsClosed | components/testimonials.tsx:87-88 | an envelope shows its closed face exactly when it is not the open card |
| TestimonialsView.ShowsOpen | components/testimonials.tsx:110-111 | an envelope shows the quote exactly when it is the open card |
| TestimonialsView.OneFaceEach | components/testimonials.tsx:42-59 | each envelope shows exactly one face and at most one is open |
| TestimonialsView.SavedTestimonialShown | app/admin/testimonials/page.tsx:50-51 | a saved testimonial is shown with its own content, name, role and company |
| SkillsView.ColorForCategory | components/skills.tsx:40-49 | the colour is one of the four palette entries |
| SkillsView.CodeUnitSumAppend | components/skills.tsx:47 | the code-unit sum of a concatenation is the sum of the parts |
| SkillsView.SwappedHalvesSameColor | components/skills.tsx:47-48 | the colour does not depend on character order |
| SkillsView.Accumulate | components/skills.tsx:21-31 | one reduce step adds the row's category to the keys, appends its name to an existing group or opens a new group with the category's colour, and leaves other groups alone |
| SkillsView.Grouped | components/skills.tsx:21-34 | no result exactly when some category is a prototype key the object literal would inherit; otherwise one group per distinct category, in order of first occurrence |
| SkillsView.Categories | components/skills.tsx:22 | each row's category, in query order |
| SkillsView.FirstOccurrences | components/skills.tsx:23-29 | the categories without repeats, in order of first occurrence |
| SkillsView.Members | components/skills.tsx:30 | the names of one category's rows, in query order |
| SkillsView.MemberOfOwnCategory | components/skills.tsx:30 | every row's name is among its category's members |
| SkillsView.NoMembersOutsideCategories | components/skills.tsx:23-30 | a category no row has gets no members |
| SkillsView.InsertKey | components/skills.tsx:34 | an index key inserted by numeric value, a permutation |
| SkillsView.SortedCons | components/skills.tsx:34 | a key no larger than the rest of an ascending list can lead it |
| SkillsView.InsertKeySorted | components/skills.tsx:34 | inserting into an ascending list keeps it ascending |
| SkillsView.SortKeys | components/skills.tsx:34 | sorting the index keys permutes them |
| SkillsView.SortKeysSorted | components/skills.tsx:34 | the sorted index keys ascend |
| SkillsView.IndexKeys | components/skills.tsx:34 | the array-index keys, in insertion order |
| SkillsView.NamedKeys | components/skills.tsx:34 | the other keys in insertion order; all keys when none is an index |
| SkillsView.PartitionKeys | components/skills.tsx:34 | every key is an index key or a named key |
| SkillsView.ObjectKeyOrder | components/skills.tsx:34 | `Object.values` order is a permutation of the keys |
| SkillsView.ObjectKeyOrderShape | components/skills.tsx:34 | ascending index keys come first and named keys follow in insertion order; without index keys the order is the insertion order |
| SkillsView.NoIndexKeys | components/skills.tsx:34 | without index keys there is nothing to sort |
| SkillsView.GroupsFor | components/skills.tsx:34 | one group per key, in the given order |
| SkillsView.OrderStep | components/skills.tsx:23-29 | one more row appends its category to the creation order if new |
| SkillsView.MembersStep | components/skills.tsx:30 | one more row adds its name to its own category only |
| SkillsView.AccumulateGroup | components/skills.tsx:21-32 | one callback gives each stored group the members of one more row |
| SkillsView.AccumulateKeys | components/skills.tsx:23-29 | one callback adds its category as a key when new and no other key |
| SkillsView.AccumulateGroups | components/skills.tsx:23-30 | after one callback every stored group holds its category's names among the rows seen |
| SkillsView.AccumulateStep | components/skills.tsx:21-32 | one callback keeps the accumulator's description true |
| SkillsView.AccumulatedGroups | components/skills.tsx:21-34 | after all rows the object's values are the groups in key order |
| SkillsView.NoPrototypeStep | components/skills.tsx:23 | no inherited category among k + 1 rows when none among k and row k is not |
| SkillsView.GroupSkills | components/skills.tsx:21-34 | the reduce with its accumulator object yields `Grouped`: the groups in `Object.values` order, or None when an inherited category makes it throw |
| SkillsView.GroupsDistinct | components/skills.tsx:21-34 | no two groups share a category |
| SkillsView.GroupsCoverCategories | components/skills.tsx:21-34 | the groups' categories are exactly the rows' categories |
| SkillsView.GroupCount | components/skills.tsx:21-34 | there are as many groups as distinct categories |
| SkillsView.RowInExactlyOneGroup | components/skills.tsx:21-34 | every row lands in exactly one group, its category's |
| SkillsView.FirstOccurrenceOrder | components/skills.tsx:21-34 | without index-like categories, groups come in first-occurrence order |
| SkillsView.InheritedNameThrows | components/skills.tsx:23-30 | a category "constructor" makes the grouping throw |
| SkillsView.Fetched | components/skills.tsx:18-35 | a non-empty answer whose grouping does not throw replaces the groups; no answer, an empty one, or a throw keeps them |
| BrandsView.Fetched | components/brands.tsx:14-18 | a non-empty answer replaces the brands; otherwise they are kept |
| BrandsView.Click | components/brands.tsx:23-27 | the name is appended unless already returned; the list stays repeat-free |
| BrandsView.ClickIdempotent | components/brands.tsx:23-27 | a second click on a returned brand changes nothing |
| BrandsView.Reset | components/brands.tsx:29-31 | every brand spills out again |
| BrandsView.IsReturned | components/brands.tsx:86-87 | a hidden brand means the folder badge shows |
| BrandsView.SameNameSameState | components/brands.tsx:87 | brands with one name hide and show together |
| BrandsView.ShowsBadge | components/brands.tsx:61-63 | the badge shows while some name is returned |
| BrandsView.BadgeFollowsClicks | components/brands.tsx:23-31 | after a click the badge shows; after a reset it does not |
| BrandsView.Spilled | components/brands.tsx:70 | the counter never exceeds the brand count and equals it when nothing is returned |
| BrandsView.Visible | components/brands.tsx:86-95 | the visible brands are exactly those whose name is not returned, each as often as the list holds it |
| BrandsView.HiddenNames | components/brands.tsx:87 | the hidden brands' names are the returned names some brand carries |
| BrandsView.VisibleHiddenSplit | components/brands.tsx:86-95 | every brand is either visible or hidden |
| BrandsView.HiddenNamesDistinct | components/brands.tsx:87 | with distinct brand names the hidden names are distinct |
| BrandsView.SpilledCountsVisible | components/brands.tsx:70 | with distinct brand names, and returned names that are repeat-free names of brands (as clicks make them), the counter equals the visible count |
| BrandsView.DuplicateNameMiscount | components/brands.tsx:70-87 | two brands with one name: one click hides both, yet the counter says one is spilled |
| HeroView.Fetched | components/hero.tsx:19-29 | a row returned by `.single()` replaces all three fields; otherwise the content is kept |
| HeroView.SavedHeroShown | components/hero.tsx:9-26 | what the hero editor saves into an empty or one-row table is shown, all three fields |
| HeroView.TitleWords | components/hero.tsx:207 | the title's words: at least one, none holding a space, joining back to the title |
| HeroView.TitleLayout | components/hero.tsx:207-211 | space-free words are laid out as themselves, with a break after every word but the last |
| HeroView.DefaultTitle | components/hero.tsx:207-211 | the default title is "Creative", a highlighted "Visual", and "Designer" |
| HeroView.RatioTenths | components/hero.tsx:31-32 | the ratio in tenths is 10 + 2·contrast, between 1.0 and 21.0 over the slider's range |
| HeroView.IsAccessible | components/hero.tsx:31-32 | accessible exactly from slider position 18 on |
| HeroView.AccessibleIffThreshold | components/hero.tsx:32-46 | the ratio reaches 4.5 exactly from position 18 on |
| HeroView.RatioEnds | components/hero.tsx:16-32 | the slider ends show 1.0 and 21.0; the starting position 10 fails |
| HeroView.SuccessAfter | components/hero.tsx:43-49 | once set it stays set; without a move reaching 18 it keeps its start; a last move at 18 or more sets it |
| HeroView.SuccessLatches | components/hero.tsx:43-49 | `isSuccess` ends set exactly when it was set or some move reached 18 |
| HeroView.LatchOutlivesAccessibility | components/hero.tsx:32-48 | the latch stays set after the ratio fails again |
| HeroView.Game.ShowsEnterButton | components/hero.tsx:171-180 | the enter button is on screen only with the game shown and the slider at 18 or more |
| HeroView.Game.constructor | components/hero.tsx:14-17 | contrast 10, nothing set |
| HeroView.Game.TimerFires | components/hero.tsx:34-41 | the game appears only when not complete |
| HeroView.Game.SliderChange | components/hero.tsx:43-49 | the contrast follows the slider, `isSuccess` latches at 18, and the enter button shows exactly when the game is up and the value is 18 or more |
| HeroView.Game.CompleteGame | components/hero.tsx:51-54 | complete and hidden, and by `Valid` never shown again |
| AboutView.Fetched | components/about.tsx:7-25 | a returned row always sets the bio and sets the image only when truthy; without one both are kept |
| AboutView.SavedAboutShown | components/about.tsx:17-21 | after the editor's save the section shows the saved bio, and the saved image unless empty, in which case the default portrait |
| Middleware.OrElse | lib/supabase/middleware.ts:9-10 | `a \|\| b`: the first when truthy, the second otherwise |
| Middleware.Configured | lib/supabase/middleware.ts:9-16 | the store counts as configured exactly when some address and some key variable are truthy |
| Middleware.Token | lib/supabase/middleware.ts:20 | the token cookie's value when present |
| Middleware.Headers | lib/supabase/middleware.ts:24-28 | an Authorization header exactly when the token is truthy, holding "Bearer " and the token |
| Middleware.Gate | lib/supabase/middleware.ts:4-47 | unconfigured: pass, no client; otherwise the client uses the fallback variables and the bearer header, and a redirect to the same URL with pathname "/auth/login" happens exactly for an "/admin" prefix with no user |
| Middleware.NeverRedirected | lib/supabase/middleware.ts:37-46 | a signed-in user, a non-admin path or a failed lookup always passes |
| Middleware.PrefixGatesLongerNames | lib/supabase/middleware.ts:37 | "/administrator" is gated too |
| ImageUpload.FileExt | components/admin/image-upload.tsx:34 | the text after the last dot, or the whole name when there is none |
| ImageUpload.ExtOfDottedName | components/admin/image-upload.tsx:34 | the extension of `p.e` is `e` for a dot-free `e` |
| ImageUpload.FilePath | components/admin/image-upload.tsx:35-36 | the random name, a dot, and an extension equal to the file's |
| ImageUpload.UndottedNameIsExtension | components/admin/image-upload.tsx:34-35 | a dot-free name is stored as "<random>.<name>" |
| ImageUpload.Bucket.constructor | components/admin/image-upload.tsx:38-40 | the bucket starts with the given objects |
| ImageUpload.Bucket.Upload | components/admin/image-upload.tsx:38-40 | an accepted upload adds the path |
| ImageUpload.Uploader.constructor | components/admin/image-upload.tsx:24 | not uploading, nothing emitted or alerted |
| ImageUpload.Uploader.FileInputEnabled | components/admin/image-upload.tsx:93 | the file input is enabled only while no upload runs |
| ImageUpload.Uploader.HandleUpload | components/admin/image-upload.tsx:27-57 | no file: nothing changes; else the path is sent, success emits the public URL once, failure alerts and emits nothing, busy during the call and not after, with the file input enabled again |
| ImageUpload.Uploader.HandleRemove | components/admin/image-upload.tsx:59-61 | "" emitted |
| ImageUpload.Uploader.ManualInput | components/admin/image-upload.tsx:104-106 | the typed text emitted verbatim |
| ImageUpload.ShowsPreview | components/admin/image-upload.tsx:67-86 | the preview shows exactly when the value is truthy |
| ImageUpload.ShowsManualEntry | components/admin/image-upload.tsx:101-110 | the manual address field shows exactly when the value is falsy |
| ImageUpload.OneFace | components/admin/image-upload.tsx:67-110 | exactly one of preview and manual entry is shown |

## Left out

- Rendering, CSS and animation: all JSX markup is left out, as are the
  random sticker and logo positions and rotations in components/skills.tsx
  and components/brands.tsx.
- Time:
  - the case studies' 5-second timeout race is an outcome (`Threw`) of
    `CaseStudies.Fetch`;
  - the hero popup's 1-second delay is the `TimerFires` event;
  - `new Date().toISOString()` is the parameter `now`.
- Randomness: `Math.random()` in the upload file name is the parameter
  `random`.
- Floating point: the contrast ratio's `toFixed(1)`/`parseFloat` pair is
  modelled as exact tenths of integer slider positions. `parseInt` NaN on the
  years field (app/admin/hero/page.tsx:107) is not modelled: `SetYears` takes
  an integer.
- Concurrency: interleavings of the asynchronous handlers are not modelled.
  This covers a second tab saving during a delete-all and re-insert, and a
  state update arriving after unmount (except the case studies'
  `isMounted` flag).
- The backend: the client construction (lib/supabase/client.ts,
  lib/supabase/server.ts) is not part of this model. So are column ordering
  and filtering done by the backend (`order("created_at")`,
  `eq("is_draft", false)`, `order("order_index")`): the rows given to the
  sections are taken as already ordered and filtered.
- Extra columns: columns such as `created_at` that ride along in
  `{ id, ...rest }` spreads are not modelled. Records carry the declared
  interface fields only.
- Errors: in the collection editors, errors from the store are ignored by the
  source and appear only as rejected outcomes.
- Aliasing: `[...projects]` is a shallow copy, so the nested-list handlers and
  the renumbering also mutate the project objects of the previous state. The
  model works on values and does not capture that sharing.
- Pages outside the core: app/admin/layout.tsx and app/admin/page.tsx (the
  same sign-in check as the gate), the login and sign-up pages, and the
  header, footer, contact and home page are not part of this model.
- AdminExperience.Editor.Save: states the save against a configured store client. The same holds for the other collection editors' `Save` and for the hero and about `Save`. Without credentials, lib/supabase/client.ts returns a mock whose `delete()` and `update()` return promises. The `.neq(...)`/`.eq(...)` chained on them then throws a TypeError, so `isSaving` stays set and nothing navigates. That credential-less path is not modelled.
- AdminProjects.Editor.UpdateVisual: requires an existing visual index,
  because writing past the end of a JavaScript array leaves holes that a
  sequence cannot hold. The same holds for UpdateSwatch and UpdateComparison.
- AdminProjects.Editor.MoveUp: requires an index inside the list; the buttons
  only offer existing positions. The same holds for MoveDown, whose
  last-index test is what makes the bottom button a no-op.
- AdminExperience.Editor.Update: requires an existing index, as the form
  renders one input per row. The same holds for the other editors' Update.
- HeroView.Game.SliderChange: requires a value in 0..100, the range input's
  bounds.
