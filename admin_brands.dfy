/** The brands editor (app/admin/brands/page.tsx). */
module AdminBrands {
  import opened Opt
  import Lists
  import Store

  /** One row of the editor. */
  datatype Brand = Brand(id: Option<string>, name: string, logoUrl: string)

  /** The fields the form edits with `updateBrand`: the name input and the
      logo, whose value comes from the image upload control's callback. */
  datatype Field = Name | LogoUrl

  function Get(b: Brand, f: Field): string {
    match f
    case Name => b.name
    case LogoUrl => b.logoUrl
  }

  /** `{ ...b, [field]: value }`: the named field takes the value, the other one stays. */
  function With(b: Brand, f: Field, value: string): (r: Brand)
    ensures Get(r, f) == value
    ensures forall g :: g != f ==> Get(r, g) == Get(b, g)
    ensures r.id == b.id
  {
    match f
    case Name => b.(name := value)
    case LogoUrl => b.(logoUrl := value)
  }

  /** The row `addBrand` appends: no id, empty name and logo URL. */
  function Blank(): (r: Brand)
    ensures r.id == None
    ensures forall f :: Get(r, f) == ""
  {
    Brand(None, "", "")
  }

  /** `const { id, ...brandData } = brand`: what is inserted for a row. */
  function WithoutId(b: Brand): (r: Brand)
    ensures r.id == None
    ensures forall f :: Get(r, f) == Get(b, f)
  {
    b.(id := None)
  }

  /** The page's state: the edited list and its two spinner flags. */
  class Editor {
    var brands: seq<Brand>
    var isLoading: bool
    var isSaving: bool
    /** Where `router.push` sent the browser, once a save finished. */
    var navigatedTo: Option<string>

    constructor ()
      ensures brands == [] && isLoading && !isSaving && navigatedTo == None
    {
      brands := [];
      isLoading := true;
      isSaving := false;
      navigatedTo := None;
    }

    /** `loadContent`: the list is replaced only when the select returned data; loading ends either way. */
    method Load(data: Option<seq<Brand>>)
      modifies this
      ensures brands == if data.Some? then data.value else old(brands)
      ensures !isLoading
      ensures isSaving == old(isSaving) && navigatedTo == old(navigatedTo)
    {
      if data.Some? {
        brands := data.value;
      }
      isLoading := false;
    }

    /** `addBrand`: appends one blank brand, the others unchanged. */
    method Add()
      modifies this
      ensures brands == old(brands) + [Blank()]
      ensures isLoading == old(isLoading) && isSaving == old(isSaving) && navigatedTo == old(navigatedTo)
    {
      brands := brands + [Blank()];
    }

    /** `removeBrand`: drops the brand at `index`, the rest keep their order. */
    method Remove(index: int)
      modifies this
      ensures brands == Lists.WithoutIndex(old(brands), index)
      ensures isLoading == old(isLoading) && isSaving == old(isSaving) && navigatedTo == old(navigatedTo)
    {
      brands := Lists.WithoutIndex(brands, index);
    }

    /** `updateBrand`: one field of one brand; every other brand is unchanged.
        The logo's upload callback calls it with `LogoUrl` and the new URL. */
    method Update(index: nat, f: Field, value: string)
      requires index < |brands|
      modifies this
      ensures brands == old(brands)[index := With(old(brands)[index], f, value)]
      ensures isLoading == old(isLoading) && isSaving == old(isSaving) && navigatedTo == old(navigatedTo)
    {
      var updated := brands;
      updated := updated[index := With(updated[index], f, value)];
      brands := updated;
    }

    /** `handleSave`: deletes every row, then inserts each brand without its
        id, in list order; then leaves for the dashboard. */
    method Save(table: Store.Table<Brand>, deleteOk: bool, outcomes: seq<Store.InsertOutcome>)
      requires |outcomes| == |brands|
      modifies this, table
      ensures brands == old(brands) && isLoading == old(isLoading)
      ensures table.rows == Store.Replaced(old(table.rows), Lists.Map(WithoutId, brands), deleteOk, outcomes)
      ensures !isSaving && navigatedTo == Some("/admin")
    {
      isSaving := true;
      Store.SaveAll(table, brands, WithoutId, deleteOk, outcomes);
      isSaving := false;
      navigatedTo := Some("/admin");
    }
  }
}
