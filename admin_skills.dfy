/** The skills editor (app/admin/skills/page.tsx). */
module AdminSkills {
  import opened Opt
  import Lists
  import Store

  /** One row of the editor. */
  datatype Skill = Skill(id: Option<string>, name: string, category: string)

  /** The fields the form edits with `updateSkill`. */
  datatype Field = Name | Category

  function Get(s: Skill, f: Field): string {
    match f
    case Name => s.name
    case Category => s.category
  }

  /** `{ ...s, [field]: value }`: the named field takes the value, the other one stays. */
  function With(s: Skill, f: Field, value: string): (r: Skill)
    ensures Get(r, f) == value
    ensures forall g :: g != f ==> Get(r, g) == Get(s, g)
    ensures r.id == s.id
  {
    match f
    case Name => s.(name := value)
    case Category => s.(category := value)
  }

  /** The row `addSkill` appends: no id, an empty name, category "Design". */
  function Blank(): (r: Skill)
    ensures r.id == None && Get(r, Name) == "" && Get(r, Category) == "Design"
  {
    Skill(None, "", "Design")
  }

  /** `const { id, ...skillData } = skill`: what is inserted for a row. */
  function WithoutId(s: Skill): (r: Skill)
    ensures r.id == None
    ensures forall f :: Get(r, f) == Get(s, f)
  {
    s.(id := None)
  }

  /** The page's state: the edited list and its two spinner flags. */
  class Editor {
    var skills: seq<Skill>
    var isLoading: bool
    var isSaving: bool
    /** Where `router.push` sent the browser, once a save finished. */
    var navigatedTo: Option<string>

    constructor ()
      ensures skills == [] && isLoading && !isSaving && navigatedTo == None
    {
      skills := [];
      isLoading := true;
      isSaving := false;
      navigatedTo := None;
    }

    /** `loadContent`: the list is replaced only when the select returned data; loading ends either way. */
    method Load(data: Option<seq<Skill>>)
      modifies this
      ensures skills == if data.Some? then data.value else old(skills)
      ensures !isLoading
      ensures isSaving == old(isSaving) && navigatedTo == old(navigatedTo)
    {
      if data.Some? {
        skills := data.value;
      }
      isLoading := false;
    }

    /** `addSkill`: appends one blank skill, the others unchanged. */
    method Add()
      modifies this
      ensures skills == old(skills) + [Blank()]
      ensures isLoading == old(isLoading) && isSaving == old(isSaving) && navigatedTo == old(navigatedTo)
    {
      skills := skills + [Blank()];
    }

    /** `removeSkill`: drops the skill at `index`, the rest keep their order. */
    method Remove(index: int)
      modifies this
      ensures skills == Lists.WithoutIndex(old(skills), index)
      ensures isLoading == old(isLoading) && isSaving == old(isSaving) && navigatedTo == old(navigatedTo)
    {
      skills := Lists.WithoutIndex(skills, index);
    }

    /** `updateSkill`: one field of one skill; every other skill is unchanged. */
    method Update(index: nat, f: Field, value: string)
      requires index < |skills|
      modifies this
      ensures skills == old(skills)[index := With(old(skills)[index], f, value)]
      ensures isLoading == old(isLoading) && isSaving == old(isSaving) && navigatedTo == old(navigatedTo)
    {
      var updated := skills;
      updated := updated[index := With(updated[index], f, value)];
      skills := updated;
    }

    /** `handleSave`: deletes every row, then inserts each skill without its
        id, in list order; then leaves for the dashboard. */
    method Save(table: Store.Table<Skill>, deleteOk: bool, outcomes: seq<Store.InsertOutcome>)
      requires |outcomes| == |skills|
      modifies this, table
      ensures skills == old(skills) && isLoading == old(isLoading)
      ensures table.rows == Store.Replaced(old(table.rows), Lists.Map(WithoutId, skills), deleteOk, outcomes)
      ensures !isSaving && navigatedTo == Some("/admin")
    {
      isSaving := true;
      Store.SaveAll(table, skills, WithoutId, deleteOk, outcomes);
      isSaving := false;
      navigatedTo := Some("/admin");
    }
  }
}
