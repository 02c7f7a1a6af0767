/** The public "client logos" folder (components/brands.tsx): brand logos
    spilled on the page that a click puts back, by name. */
module BrandsView {
  import opened Opt
  import Lists
  import AdminBrands

  /** The brands shown: replaced only when rows came back. It starts empty. */
  function Fetched(data: Option<seq<AdminBrands.Brand>>, current: seq<AdminBrands.Brand>): (bs: seq<AdminBrands.Brand>)
    ensures data.Some? && |data.value| > 0 ==> bs == data.value
    ensures !(data.Some? && |data.value| > 0) ==> bs == current
  {
    if data.Some? && |data.value| > 0 then data.value else current
  }

  /** `handleBrandClick`: the name is appended unless it is already returned. */
  function Click(returned: seq<string>, name: string): (r: seq<string>)
    ensures name in r
    ensures name in returned ==> r == returned
    ensures name !in returned ==> r == returned + [name]
    ensures Lists.Distinct(returned) ==> Lists.Distinct(r)
  {
    if name in returned then returned else returned + [name]
  }

  /** Clicking a returned brand again changes nothing. */
  lemma ClickIdempotent(returned: seq<string>, name: string)
    ensures Click(Click(returned, name), name) == Click(returned, name)
  {
  }

  /** `handleReset`: every brand spills out again. */
  function Reset(): (r: seq<string>)
    ensures |r| == 0
  {
    []
  }

  /** `returnedBrands.includes(brand.name)`: the brand is hidden. */
  predicate IsReturned(returned: seq<string>, b: AdminBrands.Brand)
    ensures IsReturned(returned, b) ==> ShowsBadge(returned)
  {
    b.name in returned
  }

  /** Brands that share a name hide and show together. */
  lemma SameNameSameState(returned: seq<string>, b: AdminBrands.Brand, c: AdminBrands.Brand)
    requires b.name == c.name
    ensures IsReturned(returned, b) <==> IsReturned(returned, c)
  {
  }

  /** The badge on the folder is shown only while something is returned. */
  predicate ShowsBadge(returned: seq<string>) {
    |returned| > 0
  }

  /** A click always leaves the badge on; a reset always takes it off. */
  lemma BadgeFollowsClicks(returned: seq<string>, name: string)
    ensures ShowsBadge(Click(returned, name))
    ensures !ShowsBadge(Reset())
  {
  }

  /** The "items spilled" counter: brands count minus returned count. */
  function Spilled(brands: seq<AdminBrands.Brand>, returned: seq<string>): (n: int)
    ensures n <= |brands|
    ensures returned == [] ==> n == |brands|
  {
    |brands| - |returned|
  }

  /** The brands still visible: the list without its returned brands. A
      visible brand appears as often as the list holds it. */
  function Visible(brands: seq<AdminBrands.Brand>, returned: seq<string>): (vs: seq<AdminBrands.Brand>)
    ensures |vs| <= |brands|
    ensures forall b :: b in vs <==> b in brands && !IsReturned(returned, b)
    ensures forall b :: multiset(vs)[b] == if IsReturned(returned, b) then 0 else multiset(brands)[b]
  {
    if brands == [] then []
    else
      assert brands == [brands[0]] + brands[1..];
      (if IsReturned(returned, brands[0]) then [] else [brands[0]]) + Visible(brands[1..], returned)
  }

  /** The names of the hidden brands, in order. */
  function HiddenNames(brands: seq<AdminBrands.Brand>, returned: seq<string>): (ns: seq<string>)
    ensures forall n :: n in ns <==> n in returned && exists i :: 0 <= i < |brands| && brands[i].name == n
  {
    if brands == [] then []
    else
      var rest := HiddenNames(brands[1..], returned);
      assert forall i :: 1 <= i < |brands| ==> brands[i] == brands[1..][i - 1];
      (if IsReturned(returned, brands[0]) then [brands[0].name] else []) + rest
  }

  function Names(brands: seq<AdminBrands.Brand>): seq<string> {
    seq(|brands|, i requires 0 <= i < |brands| => brands[i].name)
  }

  /** Each brand is either visible or counted among the hidden names. */
  lemma {:induction false} VisibleHiddenSplit(brands: seq<AdminBrands.Brand>, returned: seq<string>)
    ensures |Visible(brands, returned)| + |HiddenNames(brands, returned)| == |brands|
  {
    if brands != [] {
      VisibleHiddenSplit(brands[1..], returned);
    }
  }

  /** With distinct brand names the hidden names are distinct too. */
  lemma {:induction false} HiddenNamesDistinct(brands: seq<AdminBrands.Brand>, returned: seq<string>)
    requires Lists.Distinct(Names(brands))
    ensures Lists.Distinct(HiddenNames(brands, returned))
  {
    if brands != [] {
      var t := brands[1..];
      assert Names(t) == Names(brands)[1..];
      HiddenNamesDistinct(t, returned);
      var rest := HiddenNames(t, returned);
      if IsReturned(returned, brands[0]) {
        forall n | n in rest ensures n != brands[0].name {
          var i :| 0 <= i < |t| && t[i].name == n;
          assert Names(brands)[i + 1] == n && Names(brands)[0] == brands[0].name;
        }
        Lists.DistinctCons(brands[0].name, rest);
      }
    }
  }

  /** With distinct brand names, only names of brands returned (as clicks
      produce) and no repeats, the counter equals the brands on the page. */
  lemma SpilledCountsVisible(brands: seq<AdminBrands.Brand>, returned: seq<string>)
    requires Lists.Distinct(Names(brands)) && Lists.Distinct(returned)
    requires forall n :: n in returned ==> n in Names(brands)
    ensures Spilled(brands, returned) == |Visible(brands, returned)|
  {
    VisibleHiddenSplit(brands, returned);
    HiddenNamesDistinct(brands, returned);
    var h := HiddenNames(brands, returned);
    assert Lists.Elems(h) == Lists.Elems(returned) by {
      forall n | n in returned ensures n in h {
        assert n in Names(brands);
        var i :| 0 <= i < |brands| && Names(brands)[i] == n;
        assert brands[i].name == n;
      }
    }
    Lists.DistinctCard(h);
    Lists.DistinctCard(returned);
  }

  /** With two brands of the same name one click hides both, yet the
      counter still says one item is spilled. */
  lemma DuplicateNameMiscount(a: AdminBrands.Brand, b: AdminBrands.Brand)
    requires a.name == b.name
    ensures var returned := Click([], a.name);
            Spilled([a, b], returned) == 1 && |Visible([a, b], returned)| == 0
  {
    var returned := Click([], a.name);
    assert Visible([b], returned) == [];
    assert [a, b][1..] == [b];
  }
}
