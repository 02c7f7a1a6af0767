/** The testimonials editor (app/admin/testimonials/page.tsx). */
module AdminTestimonials {
  import opened Opt
  import Lists
  import Store

  /** One row of the editor. */
  datatype Testimonial = Testimonial(
    id: Option<string>,
    name: string,
    role: string,
    company: string,
    content: string)

  /** The fields the form edits with `updateTestimonial`. */
  datatype Field = Name | Role | Company | Content

  function Get(t: Testimonial, f: Field): string {
    match f
    case Name => t.name
    case Role => t.role
    case Company => t.company
    case Content => t.content
  }

  /** `{ ...t, [field]: value }`: the named field takes the value, no other field changes. */
  function With(t: Testimonial, f: Field, value: string): (r: Testimonial)
    ensures Get(r, f) == value
    ensures forall g :: g != f ==> Get(r, g) == Get(t, g)
    ensures r.id == t.id
  {
    match f
    case Name => t.(name := value)
    case Role => t.(role := value)
    case Company => t.(company := value)
    case Content => t.(content := value)
  }

  /** The row `addTestimonial` appends: no id, name, role, company and content all empty. */
  function Blank(): (r: Testimonial)
    ensures r.id == None
    ensures forall f :: Get(r, f) == ""
  {
    Testimonial(None, "", "", "", "")
  }

  /** `const { id, ...testimonialData } = testimonial`: what is inserted for a row. */
  function WithoutId(t: Testimonial): (r: Testimonial)
    ensures r.id == None
    ensures forall f :: Get(r, f) == Get(t, f)
  {
    t.(id := None)
  }

  /** The page's state: the edited list and its two spinner flags. */
  class Editor {
    var testimonials: seq<Testimonial>
    var isLoading: bool
    var isSaving: bool
    /** Where `router.push` sent the browser, once a save finished. */
    var navigatedTo: Option<string>

    constructor ()
      ensures testimonials == [] && isLoading && !isSaving && navigatedTo == None
    {
      testimonials := [];
      isLoading := true;
      isSaving := false;
      navigatedTo := None;
    }

    /** `loadContent`: the list is replaced only when the select returned data; loading ends either way. */
    method Load(data: Option<seq<Testimonial>>)
      modifies this
      ensures testimonials == if data.Some? then data.value else old(testimonials)
      ensures !isLoading
      ensures isSaving == old(isSaving) && navigatedTo == old(navigatedTo)
    {
      if data.Some? {
        testimonials := data.value;
      }
      isLoading := false;
    }

    /** `addTestimonial`: appends one blank row, the others unchanged. */
    method Add()
      modifies this
      ensures testimonials == old(testimonials) + [Blank()]
      ensures isLoading == old(isLoading) && isSaving == old(isSaving) && navigatedTo == old(navigatedTo)
    {
      testimonials := testimonials + [Blank()];
    }

    /** `removeTestimonial`: drops the row at `index`, the rest keep their order. */
    method Remove(index: int)
      modifies this
      ensures testimonials == Lists.WithoutIndex(old(testimonials), index)
      ensures isLoading == old(isLoading) && isSaving == old(isSaving) && navigatedTo == old(navigatedTo)
    {
      testimonials := Lists.WithoutIndex(testimonials, index);
    }

    /** `updateTestimonial`: one field of one row; every other row is unchanged. */
    method Update(index: nat, f: Field, value: string)
      requires index < |testimonials|
      modifies this
      ensures testimonials == old(testimonials)[index := With(old(testimonials)[index], f, value)]
      ensures isLoading == old(isLoading) && isSaving == old(isSaving) && navigatedTo == old(navigatedTo)
    {
      var updated := testimonials;
      updated := updated[index := With(updated[index], f, value)];
      testimonials := updated;
    }

    /** `handleSave`: deletes every row, then inserts each list row without
        its id, in list order; then leaves for the dashboard. */
    method Save(table: Store.Table<Testimonial>, deleteOk: bool, outcomes: seq<Store.InsertOutcome>)
      requires |outcomes| == |testimonials|
      modifies this, table
      ensures testimonials == old(testimonials) && isLoading == old(isLoading)
      ensures table.rows == Store.Replaced(old(table.rows), Lists.Map(WithoutId, testimonials), deleteOk, outcomes)
      ensures !isSaving && navigatedTo == Some("/admin")
    {
      isSaving := true;
      Store.SaveAll(table, testimonials, WithoutId, deleteOk, outcomes);
      isSaving := false;
      navigatedTo := Some("/admin");
    }
  }
}
