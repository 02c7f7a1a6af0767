/** The public skill stickers (components/skills.tsx): skill rows grouped by
    category in a plain JavaScript object, then listed with `Object.values`. */
module SkillsView {
  import opened Opt
  import JsText
  import Lists
  import AdminSkills

  /** The four pastel classes a category can get. */
  const Palette: seq<string> := ["bg-[#FFB5A7]", "bg-[#FCD5CE]", "bg-[#F8EDEB]", "bg-[#FEC89A]"]

  /** `getColorForCategory`: the palette entry picked by the sum of the
      category's UTF-16 code units, modulo four. */
  function ColorForCategory(category: string): (c: string)
    ensures c in Palette
  {
    Palette[JsText.CodeUnitSum(category) % |Palette|]
  }

  /** The code-unit sum of a concatenation is the sum of the parts. */
  lemma {:induction false} CodeUnitSumAppend(a: string, b: string)
    ensures JsText.CodeUnitSum(a + b) == JsText.CodeUnitSum(a) + JsText.CodeUnitSum(b)
  {
    if a != [] {
      assert (a + b)[0] == a[0] && (a + b)[1..] == a[1..] + b;
      CodeUnitSumAppend(a[1..], b);
    } else {
      assert a + b == b;
    }
  }

  /** The colour ignores the order of the characters: swapping two halves of a
      category name (an anagram such as "UXUI" and "UIUX") keeps its colour. */
  lemma SwappedHalvesSameColor(a: string, b: string)
    ensures ColorForCategory(a + b) == ColorForCategory(b + a)
  {
    CodeUnitSumAppend(a, b);
    CodeUnitSumAppend(b, a);
  }

  /** One sticker group. */
  datatype Group = Group(category: string, color: string, skills: seq<string>)

  /** The names a plain object `{}` inherits from `Object.prototype`: for them
      `acc[category]` is already truthy before any group is stored. */
  const PrototypeNames: set<string> :=
    {"constructor", "toString", "toLocaleString", "valueOf", "hasOwnProperty", "isPrototypeOf",
     "propertyIsEnumerable", "__proto__", "__defineGetter__", "__defineSetter__",
     "__lookupGetter__", "__lookupSetter__"}

  predicate IsPrototypeKey(k: string) {
    k in PrototypeNames
  }

  /** The decimal value of a string of digits. */
  function DecimalValue(s: string): nat {
    if s == [] then 0
    else
      var c := s[|s| - 1];
      DecimalValue(s[..|s| - 1]) * 10 + (if '0' <= c <= '9' then c as int - '0' as int else 0)
  }

  /** A key JavaScript treats as an array index: a canonical decimal numeral
      (no leading zero) below 2^32 - 1. Objects list such keys first. */
  predicate IsIndexKey(k: string) {
    && 1 <= |k|
    && (forall i :: 0 <= i < |k| ==> '0' <= k[i] <= '9')
    && (k[0] != '0' || |k| == 1)
    && DecimalValue(k) < 0xFFFF_FFFF
  }

  /** Each row's category, in query order. */
  function Categories(rows: seq<AdminSkills.Skill>): (cs: seq<string>)
    ensures |cs| == |rows| && forall i :: 0 <= i < |rows| ==> cs[i] == rows[i].category
  {
    seq(|rows|, i requires 0 <= i < |rows| => rows[i].category)
  }

  /** The distinct elements in order of first occurrence: the order in which
      the reduce creates the object's keys. */
  function FirstOccurrences(s: seq<string>): (r: seq<string>)
    ensures Lists.Distinct(r)
    ensures forall x :: x in r <==> x in s
  {
    if s == [] then []
    else
      var n := |s| - 1;
      assert s == s[..n] + [s[n]];
      var p := FirstOccurrences(s[..n]);
      if s[n] in p then p else p + [s[n]]
  }

  /** The names of the rows with category `c`, in query order: one group's skills. */
  function Members(rows: seq<AdminSkills.Skill>, c: string): (names: seq<string>)
    ensures |names| <= |rows|
  {
    if rows == [] then []
    else
      var n := |rows| - 1;
      Members(rows[..n], c) + if rows[n].category == c then [rows[n].name] else []
  }

  /** Every row's name is among the members of its own category. */
  lemma {:induction false} MemberOfOwnCategory(rows: seq<AdminSkills.Skill>, i: nat)
    requires i < |rows|
    ensures rows[i].name in Members(rows, rows[i].category)
  {
    var n := |rows| - 1;
    if i < n {
      MemberOfOwnCategory(rows[..n], i);
    }
  }

  /** A category that no row has gets no members. */
  lemma {:induction false} NoMembersOutsideCategories(rows: seq<AdminSkills.Skill>, c: string)
    requires c !in Categories(rows)
    ensures Members(rows, c) == []
  {
    if rows != [] {
      var n := |rows| - 1;
      assert Categories(rows[..n]) == Categories(rows)[..n];
      NoMembersOutsideCategories(rows[..n], c);
    }
  }

  function GroupOf(rows: seq<AdminSkills.Skill>, c: string): Group {
    Group(c, ColorForCategory(c), Members(rows, c))
  }

  /** Inserts an index key by numeric value into keys already in ascending order. */
  function InsertKey(k: string, s: seq<string>): (r: seq<string>)
    ensures multiset(r) == multiset(s) + multiset{k}
  {
    if s == [] || DecimalValue(k) <= DecimalValue(s[0]) then [k] + s
    else
      assert s == [s[0]] + s[1..];
      [s[0]] + InsertKey(k, s[1..])
  }

  predicate SortedByValue(s: seq<string>) {
    forall i, j :: 0 <= i < j < |s| ==> DecimalValue(s[i]) <= DecimalValue(s[j])
  }

  /** A key no larger than any key of an ascending sequence can lead it. */
  lemma SortedCons(h: string, t: seq<string>)
    requires SortedByValue(t)
    requires forall x :: x in t ==> DecimalValue(h) <= DecimalValue(x)
    ensures SortedByValue([h] + t)
  {
    var r := [h] + t;
    forall i, j | 0 <= i < j < |r| ensures DecimalValue(r[i]) <= DecimalValue(r[j]) {
      assert r[j] == t[j - 1];
      if i > 0 {
        assert r[i] == t[i - 1];
      }
    }
  }

  /** Inserting into an ascending sequence keeps it ascending. */
  lemma {:induction false} InsertKeySorted(k: string, s: seq<string>)
    requires SortedByValue(s)
    ensures SortedByValue(InsertKey(k, s))
  {
    if s == [] || DecimalValue(k) <= DecimalValue(s[0]) {
      forall x | x in s ensures DecimalValue(k) <= DecimalValue(x) {
        var i :| 0 <= i < |s| && s[i] == x;
        assert i == 0 || DecimalValue(s[0]) <= DecimalValue(s[i]);
      }
      SortedCons(k, s);
    } else {
      var rest := InsertKey(k, s[1..]);
      assert SortedByValue(s[1..]) by {
        forall i, j | 0 <= i < j < |s[1..]| ensures DecimalValue(s[1..][i]) <= DecimalValue(s[1..][j]) {
          assert s[1..][i] == s[i + 1] && s[1..][j] == s[j + 1];
        }
      }
      InsertKeySorted(k, s[1..]);
      forall x | x in rest ensures DecimalValue(s[0]) <= DecimalValue(x) {
        assert x in multiset(rest);
        if x != k {
          assert x in s[1..];
          var i :| 0 <= i < |s[1..]| && s[1..][i] == x;
          assert s[i + 1] == x;
        }
      }
      SortedCons(s[0], rest);
    }
  }

  /** The index keys in ascending numeric order. */
  function SortKeys(s: seq<string>): (r: seq<string>)
    ensures multiset(r) == multiset(s)
  {
    if s == [] then []
    else
      assert s == [s[0]] + s[1..];
      InsertKey(s[0], SortKeys(s[1..]))
  }

  lemma {:induction false} SortKeysSorted(s: seq<string>)
    ensures SortedByValue(SortKeys(s))
  {
    if s != [] {
      SortKeysSorted(s[1..]);
      InsertKeySorted(s[0], SortKeys(s[1..]));
    }
  }

  /** The index keys of `s`, in order. */
  function IndexKeys(s: seq<string>): (r: seq<string>)
    ensures forall i :: 0 <= i < |r| ==> IsIndexKey(r[i])
  {
    if s == [] then []
    else (if IsIndexKey(s[0]) then [s[0]] else []) + IndexKeys(s[1..])
  }

  /** The other keys of `s`, in order; all of `s` when it holds no index key. */
  function NamedKeys(s: seq<string>): (r: seq<string>)
    ensures forall i :: 0 <= i < |r| ==> !IsIndexKey(r[i])
    ensures (forall i :: 0 <= i < |s| ==> !IsIndexKey(s[i])) ==> r == s
  {
    if s == [] then []
    else (if IsIndexKey(s[0]) then [] else [s[0]]) + NamedKeys(s[1..])
  }

  /** Every key is either an index key or a named key. */
  lemma {:induction false} PartitionKeys(s: seq<string>)
    ensures multiset(IndexKeys(s)) + multiset(NamedKeys(s)) == multiset(s)
  {
    if s != [] {
      PartitionKeys(s[1..]);
      assert s == [s[0]] + s[1..];
    }
  }

  /** The order `Object.values` lists an object's own keys in, given the order
      they were created in: index keys first by numeric value, then the
      others in creation order. */
  function ObjectKeyOrder(keys: seq<string>): (r: seq<string>)
    ensures multiset(r) == multiset(keys)
  {
    PartitionKeys(keys);
    SortKeys(IndexKeys(keys)) + NamedKeys(keys)
  }

  /** The shape of that order: a block of index keys in ascending numeric
      order, then the other keys in creation order; creation order alone
      when no key is an index key. */
  lemma ObjectKeyOrderShape(keys: seq<string>)
    ensures var r := ObjectKeyOrder(keys);
            var n := |IndexKeys(keys)|;
            n <= |r| && SortedByValue(r[..n])
            && (forall i :: 0 <= i < n ==> IsIndexKey(r[i]))
            && r[n..] == NamedKeys(keys)
    ensures (forall i :: 0 <= i < |keys| ==> !IsIndexKey(keys[i])) ==> ObjectKeyOrder(keys) == keys
  {
    var sorted := SortKeys(IndexKeys(keys));
    SortKeysSorted(IndexKeys(keys));
    assert |sorted| == |IndexKeys(keys)| by {
      assert |multiset(sorted)| == |multiset(IndexKeys(keys))|;
    }
    forall i | 0 <= i < |sorted| ensures IsIndexKey(sorted[i]) {
      assert sorted[i] in multiset(IndexKeys(keys));
    }
    var r := sorted + NamedKeys(keys);
    assert r[..|sorted|] == sorted && r[|sorted|..] == NamedKeys(keys);
    if forall i :: 0 <= i < |keys| ==> !IsIndexKey(keys[i]) {
      NoIndexKeys(keys);
    }
  }

  /** Without index keys there is nothing to sort. */
  lemma {:induction false} NoIndexKeys(s: seq<string>)
    requires forall i :: 0 <= i < |s| ==> !IsIndexKey(s[i])
    ensures IndexKeys(s) == []
  {
    if s != [] {
      NoIndexKeys(s[1..]);
    }
  }

  /** The object's keys in `Object.values` order. */
  function GroupKeys(rows: seq<AdminSkills.Skill>): seq<string> {
    ObjectKeyOrder(FirstOccurrences(Categories(rows)))
  }

  /** The group of each key, in the order given. */
  function GroupsFor(rows: seq<AdminSkills.Skill>, keys: seq<string>): (gs: seq<Group>)
    ensures |gs| == |keys| && forall j :: 0 <= j < |keys| ==> gs[j] == GroupOf(rows, keys[j])
  {
    seq(|keys|, j requires 0 <= j < |keys| => GroupOf(rows, keys[j]))
  }

  /** Some row has an inherited name as its category. */
  predicate HitsPrototype(rows: seq<AdminSkills.Skill>) {
    exists i :: 0 <= i < |rows| && IsPrototypeKey(rows[i].category)
  }

  /** The groups the reduce builds, in `Object.values` order, or None when a
      category is an inherited name: then `acc[category]` is truthy, holds no
      `skills`, and the `push` throws before anything is shown. */
  function Grouped(rows: seq<AdminSkills.Skill>): (r: Option<seq<Group>>)
    ensures r.None? <==> exists i :: 0 <= i < |rows| && IsPrototypeKey(rows[i].category)
    ensures r.Some? ==> |r.value| == |GroupKeys(rows)|
                        && forall j :: 0 <= j < |r.value| ==> r.value[j].category == GroupKeys(rows)[j]
  {
    if HitsPrototype(rows) then None else Some(GroupsFor(rows, GroupKeys(rows)))
  }

  /** One more row: its category is appended to the creation order if new. */
  lemma OrderStep(rows: seq<AdminSkills.Skill>, k: nat)
    requires k < |rows|
    ensures var c := rows[k].category;
            var p := FirstOccurrences(Categories(rows[..k]));
            FirstOccurrences(Categories(rows[..k + 1])) == if c in p then p else p + [c]
  {
    assert Categories(rows[..k + 1])[..k] == Categories(rows[..k]);
  }

  /** One more row: its name joins the members of its category and no other. */
  lemma MembersStep(rows: seq<AdminSkills.Skill>, k: nat, c: string)
    requires k < |rows|
    ensures Members(rows[..k + 1], c) == Members(rows[..k], c) + if rows[k].category == c then [rows[k].name] else []
  {
    assert rows[..k + 1][..k] == rows[..k];
  }

  /** One call of the reduce callback on a category that is not inherited:
      create the group if the key is new, then push the name. */
  function Accumulate(acc: map<string, Group>, skill: AdminSkills.Skill): (r: map<string, Group>)
    ensures r.Keys == acc.Keys + {skill.category}
    ensures skill.category in acc ==> r[skill.category] == acc[skill.category].(skills := acc[skill.category].skills + [skill.name])
    ensures skill.category !in acc ==> r[skill.category] == Group(skill.category, ColorForCategory(skill.category), [skill.name])
    ensures forall c :: c in acc && c != skill.category ==> r[c] == acc[c]
  {
    var c := skill.category;
    var base := if c in acc then acc else acc[c := Group(c, ColorForCategory(c), [])];
    base[c := base[c].(skills := base[c].skills + [skill.name])]
  }

  /** What the accumulator holds after the first k rows: one group per
      category met so far, with that category's names, keys in creation order. */
  ghost predicate Holds(rows: seq<AdminSkills.Skill>, acc: map<string, Group>, order: seq<string>) {
    && order == FirstOccurrences(Categories(rows))
    && (forall c :: c in acc <==> c in order)
    && (forall c :: c in acc ==> acc[c] == GroupOf(rows, c))
  }

  /** The callback gives every stored group the members of the first k + 1 rows. */
  lemma AccumulateGroup(rows: seq<AdminSkills.Skill>, k: nat, acc: map<string, Group>, c: string)
    requires k < |rows|
    requires forall c :: c in acc ==> acc[c] == GroupOf(rows[..k], c)
    requires rows[k].category !in acc ==> Members(rows[..k], rows[k].category) == []
    requires c in Accumulate(acc, rows[k])
    ensures Accumulate(acc, rows[k])[c] == GroupOf(rows[..k + 1], c)
  {
    MembersStep(rows, k, c);
    if c != rows[k].category {
      assert Accumulate(acc, rows[k])[c] == acc[c];
    }
  }

  /** The callback adds its category to the keys when new and no other key. */
  lemma AccumulateKeys(acc: map<string, Group>, skill: AdminSkills.Skill, order: seq<string>)
    requires forall c :: c in acc <==> c in order
    ensures var order' := if skill.category in acc then order else order + [skill.category];
            forall c :: c in Accumulate(acc, skill) <==> c in order'
  {
  }

  /** The callback gives every stored group the members of the first k + 1 rows. */
  lemma AccumulateGroups(rows: seq<AdminSkills.Skill>, k: nat, acc: map<string, Group>)
    requires k < |rows|
    requires forall c :: c in acc ==> acc[c] == GroupOf(rows[..k], c)
    requires rows[k].category !in acc ==> Members(rows[..k], rows[k].category) == []
    ensures forall c :: c in Accumulate(acc, rows[k]) ==> Accumulate(acc, rows[k])[c] == GroupOf(rows[..k + 1], c)
  {
    forall c | c in Accumulate(acc, rows[k]) ensures Accumulate(acc, rows[k])[c] == GroupOf(rows[..k + 1], c) {
      AccumulateGroup(rows, k, acc, c);
    }
  }

  /** The three parts of `Holds` together. */
  lemma HoldsIntro(rows: seq<AdminSkills.Skill>, acc: map<string, Group>, order: seq<string>)
    requires order == FirstOccurrences(Categories(rows))
    requires forall c :: c in acc <==> c in order
    requires forall c :: c in acc ==> acc[c] == GroupOf(rows, c)
    ensures Holds(rows, acc, order)
  {
  }

  /** The callback keeps that description true for one more row. */
  lemma AccumulateStep(rows: seq<AdminSkills.Skill>, k: nat, acc: map<string, Group>, order: seq<string>)
    requires k < |rows| && Holds(rows[..k], acc, order)
    ensures Holds(rows[..k + 1], Accumulate(acc, rows[k]),
                  if rows[k].category in acc then order else order + [rows[k].category])
  {
    var c0 := rows[k].category;
    var order' := if c0 in acc then order else order + [c0];
    OrderStep(rows, k);
    AccumulateKeys(acc, rows[k], order);
    if c0 !in acc {
      NoMembersOutsideCategories(rows[..k], c0);
    }
    AccumulateGroups(rows, k, acc);
    HoldsIntro(rows[..k + 1], Accumulate(acc, rows[k]), order');
  }

  /** Once every row is accumulated, listing the accumulator in
      `Object.values` order gives the specified groups. */
  lemma AccumulatedGroups(rows: seq<AdminSkills.Skill>, acc: map<string, Group>, order: seq<string>)
    requires Holds(rows, acc, order)
    ensures var keys := ObjectKeyOrder(order);
            (forall j :: 0 <= j < |keys| ==> keys[j] in acc)
            && GroupsFor(rows, GroupKeys(rows)) == seq(|keys|, j requires 0 <= j < |keys| && keys[j] in acc => acc[keys[j]])
  {
    var keys := ObjectKeyOrder(order);
    forall j | 0 <= j < |keys| ensures keys[j] in acc {
      assert keys[j] in multiset(order);
    }
  }

  /** No row of the first k + 1 is inherited when none of the first k is and row k is not. */
  lemma NoPrototypeStep(rows: seq<AdminSkills.Skill>, k: nat)
    requires k < |rows| && !HitsPrototype(rows[..k]) && !IsPrototypeKey(rows[k].category)
    ensures !HitsPrototype(rows[..k + 1])
  {
    assert forall i :: 0 <= i < k ==> rows[..k + 1][i] == rows[..k][i];
  }

  /** The reduce over the rows with its accumulator object, then `Object.values`. */
  method GroupSkills(rows: seq<AdminSkills.Skill>) returns (r: Option<seq<Group>>)
    ensures r == Grouped(rows)
  {
    var acc: map<string, Group> := map[];
    var order: seq<string> := [];
    for k := 0 to |rows|
      invariant !HitsPrototype(rows[..k])
      invariant Holds(rows[..k], acc, order)
    {
      if IsPrototypeKey(rows[k].category) {
        assert HitsPrototype(rows);
        return None;
      }
      NoPrototypeStep(rows, k);
      AccumulateStep(rows, k, acc, order);
      if rows[k].category !in acc {
        order := order + [rows[k].category];
      }
      acc := Accumulate(acc, rows[k]);
    }
    assert rows[..|rows|] == rows;
    AccumulatedGroups(rows, acc, order);
    var keys := ObjectKeyOrder(order);
    r := Some(seq(|keys|, j requires 0 <= j < |keys| && keys[j] in acc => acc[keys[j]]));
  }

  /** No two groups share a category. */
  lemma GroupsDistinct(rows: seq<AdminSkills.Skill>)
    requires Grouped(rows).Some?
    ensures var gs := Grouped(rows).value;
            forall i, j :: 0 <= i < j < |gs| ==> gs[i].category != gs[j].category
  {
    var first := FirstOccurrences(Categories(rows));
    Lists.DistinctPermutation(GroupKeys(rows), first);
  }

  /** The groups' categories are exactly the rows' categories. */
  lemma GroupsCoverCategories(rows: seq<AdminSkills.Skill>, c: string)
    requires Grouped(rows).Some?
    ensures var gs := Grouped(rows).value;
            c in Categories(rows) <==> exists g :: 0 <= g < |gs| && gs[g].category == c
  {
    var keys := GroupKeys(rows);
    var first := FirstOccurrences(Categories(rows));
    var gs := Grouped(rows).value;
    if c in Categories(rows) {
      assert c in multiset(first);
      var g :| 0 <= g < |keys| && keys[g] == c;
      assert gs[g].category == c;
    }
    if exists g :: 0 <= g < |gs| && gs[g].category == c {
      var g :| 0 <= g < |gs| && gs[g].category == c;
      assert keys[g] in multiset(first);
    }
  }

  /** There are as many groups as distinct categories. */
  lemma GroupCount(rows: seq<AdminSkills.Skill>)
    requires Grouped(rows).Some?
    ensures |Grouped(rows).value| == |Lists.Elems(Categories(rows))|
  {
    var first := FirstOccurrences(Categories(rows));
    var keys := GroupKeys(rows);
    Lists.DistinctCard(first);
    assert Lists.Elems(first) == Lists.Elems(Categories(rows));
    assert |keys| == |multiset(keys)| == |multiset(first)| == |first|;
  }

  /** Every row lands in exactly one group, the group of its category, which
      lists the names of that category's rows in query order. */
  lemma RowInExactlyOneGroup(rows: seq<AdminSkills.Skill>, i: nat)
    requires Grouped(rows).Some? && i < |rows|
    ensures var gs := Grouped(rows).value;
            (exists g :: 0 <= g < |gs| && gs[g].category == rows[i].category && rows[i].name in gs[g].skills)
            && (forall g, h :: (0 <= g < |gs| && 0 <= h < |gs| && gs[g].category == rows[i].category
                                && gs[h].category == rows[i].category) ==> g == h)
            && (forall g :: 0 <= g < |gs| ==> gs[g].skills == Members(rows, gs[g].category)
                                              && gs[g].color == ColorForCategory(gs[g].category))
  {
    GroupsDistinct(rows);
    GroupsCoverCategories(rows, rows[i].category);
    assert rows[i].category in Categories(rows);
    MemberOfOwnCategory(rows, i);
  }

  /** When no category looks like an array index, groups come in order of first occurrence. */
  lemma FirstOccurrenceOrder(rows: seq<AdminSkills.Skill>)
    requires Grouped(rows).Some?
    requires forall i :: 0 <= i < |rows| ==> !IsIndexKey(rows[i].category)
    ensures var gs := Grouped(rows).value;
            var first := FirstOccurrences(Categories(rows));
            |gs| == |first| && forall g :: 0 <= g < |gs| ==> gs[g].category == first[g]
  {
    var first := FirstOccurrences(Categories(rows));
    forall i | 0 <= i < |first| ensures !IsIndexKey(first[i]) {
      assert first[i] in Categories(rows);
    }
  }

  /** A category such as "constructor" stops the grouping: nothing is shown. */
  lemma InheritedNameThrows(rows: seq<AdminSkills.Skill>, i: nat)
    requires i < |rows| && rows[i].category == "constructor"
    ensures Grouped(rows) == None
  {
    assert IsPrototypeKey(rows[i].category);
  }

  /** The section's groups after the fetch: set only when rows came back and
      the grouping did not throw. It starts empty. */
  function Fetched(data: Option<seq<AdminSkills.Skill>>, current: seq<Group>): (gs: seq<Group>)
    ensures data.None? || |data.value| == 0 ==> gs == current
    ensures data.Some? && |data.value| > 0 && Grouped(data.value).Some? ==> gs == Grouped(data.value).value
    ensures data.Some? && |data.value| > 0 && Grouped(data.value).None? ==> gs == current
  {
    if data.Some? && |data.value| > 0 then
      match Grouped(data.value)
      case Some(groups) => groups
      case None => current
    else current
  }
}
