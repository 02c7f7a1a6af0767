/** The public envelopes (components/testimonials.tsx): testimonial rows renamed into cards. */
module TestimonialsView {
  import opened Opt
  import Selection
  import AdminTestimonials

  /** One envelope's content. */
  datatype Card = Card(quote: string, author: string, role: string, company: string)

  /** quote from content, author from name; role and company as they are. */
  function ToCard(t: AdminTestimonials.Testimonial): (c: Card)
    ensures c.quote == t.content && c.author == t.name && c.role == t.role && c.company == t.company
  {
    Card(t.content, t.name, t.role, t.company)
  }

  /** `data.map(...)`: one card per row, same order. */
  function Cards(rows: seq<AdminTestimonials.Testimonial>): (cs: seq<Card>)
    ensures |cs| == |rows|
    ensures forall i :: 0 <= i < |rows| ==> cs[i] == ToCard(rows[i])
  {
    seq(|rows|, i requires 0 <= i < |rows| => ToCard(rows[i]))
  }

  /** The list after the fetch: replaced only when rows came back. It starts empty. */
  function Fetched(data: Option<seq<AdminTestimonials.Testimonial>>, current: seq<Card>): (cs: seq<Card>)
    ensures data.Some? && |data.value| > 0 ==> cs == Cards(data.value)
    ensures !(data.Some? && |data.value| > 0) ==> cs == current
  {
    if data.Some? && |data.value| > 0 then Cards(data.value) else current
  }

  /** A card renders its closed face (author and company) exactly when it is not the open one. */
  predicate ShowsClosed(open: Option<nat>, idx: nat)
    ensures ShowsClosed(open, idx) <==> !Selection.IsOpen(open, idx)
  {
    open != Some(idx)
  }

  /** A card renders its open face (the quote) exactly when it is the open one. */
  predicate ShowsOpen(open: Option<nat>, idx: nat)
    ensures ShowsOpen(open, idx) <==> Selection.IsOpen(open, idx)
  {
    open == Some(idx)
  }

  /** Every envelope shows exactly one of its faces, and at most one shows the quote. */
  lemma OneFaceEach(open: Option<nat>, i: nat, j: nat)
    ensures ShowsClosed(open, i) != ShowsOpen(open, i)
    ensures ShowsOpen(open, i) && ShowsOpen(open, j) ==> i == j
    ensures ShowsOpen(open, i) <==> Selection.IsOpen(open, i)
  {
  }

  /** The card the editor saved shows the editor's text: content as the quote, name as the author. */
  lemma SavedTestimonialShown(t: AdminTestimonials.Testimonial)
    ensures ToCard(AdminTestimonials.WithoutId(t)) == Card(t.content, t.name, t.role, t.company)
  {
    assert AdminTestimonials.Get(AdminTestimonials.WithoutId(t), AdminTestimonials.Content) == t.content;
    assert AdminTestimonials.Get(AdminTestimonials.WithoutId(t), AdminTestimonials.Name) == t.name;
    assert AdminTestimonials.Get(AdminTestimonials.WithoutId(t), AdminTestimonials.Role) == t.role;
    assert AdminTestimonials.Get(AdminTestimonials.WithoutId(t), AdminTestimonials.Company) == t.company;
  }
}
