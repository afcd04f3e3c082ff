/**
 * The skills editor of the admin area: the loaded skill table, the edits the
 * page makes to one category's list (change a field, add a skill, remove a
 * skill), and the requests it sends. Outgoing requests are recorded in order
 * instead of being sent.
 */
module AdminSkills {
  import opened Wrappers
  import opened Json
  import opened ContentTypes
  import SkillsRoute

  /** The three categories, in the order the page saves them. */
  datatype Key = Frontend | Backend | Tools

  function KeyName(k: Key): (name: string)
    ensures name in SkillsRoute.ValidCategories
  {
    match k
    case Frontend => "frontend"
    case Backend => "backend"
    case Tools => "tools"
  }

  const SaveOrder: seq<Key> := [Frontend, Backend, Tools]

  function CategoryOf(s: Skills, k: Key): SkillCategory {
    match k
    case Frontend => s.frontend
    case Backend => s.backend
    case Tools => s.tools
  }

  /** The table with category `k` replaced and the other two kept. */
  function WithCategory(s: Skills, k: Key, c: SkillCategory): (r: Skills)
    ensures CategoryOf(r, k) == c
    ensures forall other :: other != k ==> CategoryOf(r, other) == CategoryOf(s, other)
  {
    match k
    case Frontend => s.(frontend := c)
    case Backend => s.(backend := c)
    case Tools => s.(tools := c)
  }

  /** The table with the skill list of category `k` replaced. */
  function WithList(s: Skills, k: Key, list: seq<Skill>): (r: Skills)
    ensures CategoryOf(r, k) == CategoryOf(s, k).(skills := list)
    ensures forall other :: other != k ==> CategoryOf(r, other) == CategoryOf(s, other)
  {
    WithCategory(s, k, CategoryOf(s, k).(skills := list))
  }

  // ---------------------------------------------------------------------------
  // Edits to one list
  // ---------------------------------------------------------------------------

  datatype Field = Name | Level

  /**
   * `{ ...skill, [field]: field === "level" ? Number(value) : value }`; the
   * level slider only sends decimal integers.
   */
  function SetField(skill: Skill, field: Field, value: string): (r: Skill)
    requires field == Level ==> StringToNumber(value).Int?
    ensures field == Name ==> r == skill.(name := value)
    ensures field == Level ==> r == skill.(level := StringToNumber(value).n)
  {
    match field
    case Name => skill.(name := value)
    case Level => skill.(level := StringToNumber(value).n)
  }

  /** The skill `handleAddSkill` appends. */
  const NewSkill: Skill := Skill("", 50, None)

  /**
   * `list.splice(index, 1)`: a negative index counts from the end, and an
   * index at or past the end removes nothing.
   */
  function Splice(list: seq<Skill>, index: int): (r: seq<Skill>)
    ensures 0 <= index < |list| ==> r == list[..index] + list[index + 1..]
    ensures index >= |list| ==> r == list
    ensures -|list| <= index < 0 ==> r == list[..|list| + index] + list[|list| + index + 1..]
    ensures index < -|list| && list != [] ==> r == list[1..]
  {
    var start := if index < 0 then (if |list| + index < 0 then 0 else |list| + index) else index;
    if start < |list| then list[..start] + list[start + 1..] else list
  }

  /** Removing element `i` shortens the list by one and keeps the others in order. */
  lemma SpliceRemovesOne(list: seq<Skill>, i: nat)
    requires i < |list|
    ensures |Splice(list, i)| == |list| - 1
    ensures forall j :: 0 <= j < i ==> Splice(list, i)[j] == list[j]
    ensures forall j :: i <= j < |list| - 1 ==> Splice(list, i)[j] == list[j + 1]
  {
  }

  // ---------------------------------------------------------------------------
  // Requests
  // ---------------------------------------------------------------------------

  datatype Request =
    | GetSkills
    | PutCategory(body: SkillsRoute.PutBody)

  /** The body of the `PUT` for category `k`, as the route decodes `{ category, data }`. */
  function PutRequest(s: Skills, k: Key): (r: Request)
    ensures r.PutCategory? && r.body.category == Some(KeyName(k))
  {
    var c := CategoryOf(s, k);
    PutCategory(SkillsRoute.PutBody(Some(KeyName(k)),
      Some(SkillsRoute.CategoryData(Some(c.category), Some(c.title), Some(c.order), Some(c.skills)))))
  }

  /** The requests `handleSave` sends: one `PUT` per category, in `SaveOrder`. */
  function SaveRequests(s: Skills, n: nat): (rs: seq<Request>)
    requires n <= |SaveOrder|
    ensures |rs| == n
    ensures forall i :: 0 <= i < n ==> rs[i] == PutRequest(s, SaveOrder[i])
  {
    if n == 0 then [] else SaveRequests(s, n - 1) + [PutRequest(s, SaveOrder[n - 1])]
  }

  /** The store after the route has handled one request from an authenticated admin. */
  function Apply(before: SkillsRoute.Saved, r: Request): SkillsRoute.Saved {
    if r.PutCategory? then SkillsRoute.PutOutcome(true, Some(r.body), before).1 else before
  }

  /** The store after the route has handled `requests` in order. */
  function Replay(saved: SkillsRoute.Saved, requests: seq<Request>): SkillsRoute.Saved {
    if requests == [] then saved
    else Apply(Replay(saved, requests[..|requests| - 1]), requests[|requests| - 1])
  }

  lemma ReplaySnoc(saved: SkillsRoute.Saved, rs: seq<Request>, r: Request)
    ensures Replay(saved, rs + [r]) == Apply(Replay(saved, rs), r)
  {
    assert (rs + [r])[..|rs|] == rs;
  }

  /** What the route saves for category `k` of the page's table. */
  function SavedFor(s: Skills, k: Key): SkillsRoute.SavedCategory {
    var c := CategoryOf(s, k);
    SkillsRoute.SavedCategory(
      if c.category != "" then c.category else KeyName(k),
      if c.title != "" then c.title else KeyName(k),
      c.order, c.skills, None)
  }

  /** The route stores one category's `PUT` as `SavedFor` that category. */
  lemma PutStep(s: Skills, k: Key, before: SkillsRoute.Saved)
    ensures Apply(before, PutRequest(s, k)) == before[KeyName(k) := SavedFor(s, k)]
  {
  }

  lemma SaveRequestsList(s: Skills)
    ensures SaveRequests(s, 3) == [PutRequest(s, Frontend), PutRequest(s, Backend), PutRequest(s, Tools)]
  {
  }

  lemma ReplayThree(saved: SkillsRoute.Saved, a: Request, b: Request, c: Request)
    ensures Replay(saved, [a, b, c]) == Apply(Apply(Apply(saved, a), b), c)
  {
    ReplaySnoc(saved, [], a);
    assert [] + [a] == [a];
    ReplaySnoc(saved, [a], b);
    assert [a] + [b] == [a, b];
    ReplaySnoc(saved, [a, b], c);
    assert [a, b] + [c] == [a, b, c];
  }

  /** The three `PUT`s of a save, handled in order, write the three categories in order. */
  lemma SaveReplay(s: Skills, saved: SkillsRoute.Saved)
    ensures Replay(saved, SaveRequests(s, 3)) ==
      saved[KeyName(Frontend) := SavedFor(s, Frontend)][KeyName(Backend) := SavedFor(s, Backend)][KeyName(Tools) := SavedFor(s, Tools)]
  {
    SaveRequestsList(s);
    ReplayThree(saved, PutRequest(s, Frontend), PutRequest(s, Backend), PutRequest(s, Tools));
    PutStep(s, Frontend, saved);
    var o1 := saved[KeyName(Frontend) := SavedFor(s, Frontend)];
    PutStep(s, Backend, o1);
    var o2 := o1[KeyName(Backend) := SavedFor(s, Backend)];
    PutStep(s, Tools, o2);
  }

  /** Once the route has handled a save, it holds each of the page's three categories. */
  lemma SaveIsStored(s: Skills, saved: SkillsRoute.Saved)
    ensures var out := Replay(saved, SaveRequests(s, 3));
      forall k :: KeyName(k) in out && out[KeyName(k)] == SavedFor(s, k)
  {
    SaveReplay(s, saved);
  }

  // ---------------------------------------------------------------------------
  // The editor
  // ---------------------------------------------------------------------------

  class SkillsEditor {
    /** `null` until the table has been fetched. */
    var skills: Option<Skills>
    var loading: bool
    var saving: bool
    var requests: seq<Request>

    constructor ()
      ensures skills.None? && loading && !saving && requests == []
    {
      skills := None;
      loading := true;
      saving := false;
      requests := [];
    }

    /** `fetchSkills`, answered with `data`. */
    method FetchSkills(data: Skills)
      modifies this
      ensures requests == old(requests) + [GetSkills]
      ensures skills == Some(data) && !loading && saving == old(saving)
    {
      requests := requests + [GetSkills];
      skills := Some(data);
      loading := false;
    }

    /** `handleSkillChange`: only the named field of skill `index` in category `k` changes. */
    method HandleSkillChange(k: Key, index: nat, field: Field, value: string)
      requires skills.Some? ==> index < |CategoryOf(skills.value, k).skills|
      requires field == Level ==> StringToNumber(value).Int?
      modifies this
      ensures old(skills).None? ==> skills.None?
      ensures old(skills).Some? ==>
        var list := CategoryOf(old(skills).value, k).skills;
        skills == Some(WithList(old(skills).value, k, list[index := SetField(list[index], field, value)]))
      ensures requests == old(requests) && loading == old(loading) && saving == old(saving)
    {
      if skills.None? {
        return;
      }
      var list := CategoryOf(skills.value, k).skills;
      skills := Some(WithList(skills.value, k, list[index := SetField(list[index], field, value)]));
    }

    /** `handleAddSkill`: category `k` gains the skill `{ name: "", level: 50 }` at its end. */
    method HandleAddSkill(k: Key)
      modifies this
      ensures old(skills).None? ==> skills.None?
      ensures old(skills).Some? ==>
        skills == Some(WithList(old(skills).value, k, CategoryOf(old(skills).value, k).skills + [NewSkill]))
      ensures requests == old(requests) && loading == old(loading) && saving == old(saving)
    {
      if skills.None? {
        return;
      }
      skills := Some(WithList(skills.value, k, CategoryOf(skills.value, k).skills + [NewSkill]));
    }

    /** `handleRemoveSkill`: category `k` loses the skill at `index`. */
    method HandleRemoveSkill(k: Key, index: int)
      modifies this
      ensures old(skills).None? ==> skills.None?
      ensures old(skills).Some? ==>
        skills == Some(WithList(old(skills).value, k, Splice(CategoryOf(old(skills).value, k).skills, index)))
      ensures requests == old(requests) && loading == old(loading) && saving == old(saving)
    {
      if skills.None? {
        return;
      }
      skills := Some(WithList(skills.value, k, Splice(CategoryOf(skills.value, k).skills, index)));
    }

    /** `handleSave`: one `PUT` per category, frontend, backend, tools, each with that category. */
    method HandleSave()
      modifies this
      ensures old(skills).None? ==> requests == old(requests)
      ensures old(skills).Some? ==> requests == old(requests) + SaveRequests(old(skills).value, 3)
      ensures skills == old(skills) && loading == old(loading)
      ensures old(skills).Some? ==> !saving
      ensures old(skills).None? ==> saving == old(saving)
    {
      if skills.None? {
        return;
      }
      saving := true;
      var s := skills.value;
      var i := 0;
      while i < |SaveOrder|
        invariant 0 <= i <= |SaveOrder|
        invariant skills == old(skills) && loading == old(loading)
        invariant requests == old(requests) + SaveRequests(s, i)
      {
        requests := requests + [PutRequest(s, SaveOrder[i])];
        i := i + 1;
      }
      saving := false;
    }
  }
}
