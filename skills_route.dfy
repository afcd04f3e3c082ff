/**
 * The skills route: `GET` returns the skills table, `PUT` replaces one of the
 * three categories, `PATCH` merges new fields into one skill of a category.
 * Saved categories go to a store keyed by category that a save replaces or
 * adds one entry of; reads still come from the embedded table.
 */
module SkillsRoute {
  import opened Wrappers
  import opened Storage
  import opened Http
  import opened ContentTypes
  import opened Content
  import opened Auth

  /** The `data` of a `PUT`; an absent field is `None`. */
  datatype CategoryData = CategoryData(
    category: Option<string>,
    title: Option<string>,
    order: Option<int>,
    skills: Option<seq<Skill>>)

  datatype PutBody = PutBody(category: Option<string>, data: Option<CategoryData>)

  /** The fields a `PATCH` sets on a skill; an absent field keeps the skill's own. */
  datatype SkillPatch = SkillPatch(name: Option<string>, level: Option<int>, icon: Option<string>)

  datatype PatchBody = PatchBody(category: Option<string>, skillIndex: Option<int>, skill: Option<SkillPatch>)

  /** What `saveSkillCategory` stores; a `PUT` saves no slug, a `PATCH` keeps the existing one. */
  datatype SavedCategory = SavedCategory(
    category: string,
    title: string,
    order: int,
    skills: seq<Skill>,
    slug: Option<string>)

  type Saved = map<string, SavedCategory>

  datatype Reply =
    | Failure(error: string)
    | Table(skills: Skills)
    | Updated(skills: Skills)
    | Patched(category: SkillCategory)

  const ValidCategories: seq<string> := ["frontend", "backend", "tools"]

  /** A string field that is present and not empty, so truthy. */
  predicate Given(f: Option<string>) {
    f.Some? && f.value != ""
  }

  // ---------------------------------------------------------------------------
  // PUT
  // ---------------------------------------------------------------------------

  /** The category `PUT` saves under `key`: every missing or falsy field falls back to its default. */
  function PutRecord(key: string, d: CategoryData): (c: SavedCategory)
    ensures c.category == (if Given(d.category) then d.category.value else key)
    ensures c.title == (if Given(d.title) then d.title.value else key)
    ensures c.order == d.order.GetOr(0)
    ensures c.skills == d.skills.GetOr([])
    ensures c.slug.None?
  {
    SavedCategory(
      if Given(d.category) then d.category.value else key,
      if Given(d.title) then d.title.value else key,
      d.order.GetOr(0),
      d.skills.GetOr([]),
      None)
  }

  /**
   * `PUT`: 401 when not authenticated; 500 when the body cannot be read;
   * 400 when the category or the data is missing, and 400 when the category
   * is not one of the three; otherwise the category is saved and the answer
   * is the skills table. Only the last changes the store.
   */
  function PutOutcome(authenticated: bool, body: Option<PutBody>, saved: Saved): (r: (Response<Reply>, Saved))
    ensures !authenticated ==> r == (Response(Unauthorized, Failure("Unauthorized")), saved)
    ensures authenticated && body.None? ==> r == (Response(ServerError, Failure("Failed to update skills")), saved)
    ensures r.0.status == BadRequest <==>
      authenticated && body.Some? && !(Given(body.value.category) && body.value.data.Some? && body.value.category.value in ValidCategories)
    ensures r.0.status == OK <==>
      authenticated && body.Some? && Given(body.value.category) && body.value.data.Some? && body.value.category.value in ValidCategories
    ensures r.0.status != OK ==> r.0.body.Failure? && r.1 == saved
    ensures r.0.status == OK ==>
      && r.0.body == Updated(GetSkills())
      && r.1 == Write(saved, body.value.category.value, PutRecord(body.value.category.value, body.value.data.value))
  {
    if !authenticated then (Response(Unauthorized, Failure("Unauthorized")), saved)
    else if body.None? then (Response(ServerError, Failure("Failed to update skills")), saved)
    else
      var b := body.value;
      if !Given(b.category) || b.data.None? then
        (Response(BadRequest, Failure("Category and data are required")), saved)
      else if b.category.value !in ValidCategories then
        (Response(BadRequest, Failure("Invalid category. Must be frontend, backend, or tools")), saved)
      else
        var key := b.category.value;
        (Response(OK, Updated(GetSkills())), Write(saved, key, PutRecord(key, b.data.value)))
  }

  /** A `PUT` for any key outside the three saves nothing, whatever its data. */
  lemma PutInvalidCategory(body: PutBody, saved: Saved)
    requires Given(body.category) && body.data.Some?
    requires body.category.value !in {"frontend", "backend", "tools"}
    ensures PutOutcome(true, Some(body), saved) == (Response(BadRequest, Failure("Invalid category. Must be frontend, backend, or tools")), saved)
  {
  }

  /** An empty `data` object saves the key as category and title, order 0 and no skills. */
  lemma PutDefaults(key: string, saved: Saved)
    requires key in {"frontend", "backend", "tools"}
    ensures PutOutcome(true, Some(PutBody(Some(key), Some(CategoryData(None, None, None, None)))), saved).1[key]
      == SavedCategory(key, key, 0, [], None)
  {
  }

  /** The answer to a `PUT` is the embedded table, whatever was saved. */
  lemma PutAnswerIgnoresSave(a: PutBody, b: PutBody, s: Saved, t: Saved)
    requires PutOutcome(true, Some(a), s).0.status == OK && PutOutcome(true, Some(b), t).0.status == OK
    ensures PutOutcome(true, Some(a), s).0 == PutOutcome(true, Some(b), t).0
  {
  }

  // ---------------------------------------------------------------------------
  // PATCH
  // ---------------------------------------------------------------------------

  /** `{ ...old, ...patch }`: the fields present in the patch replace the skill's own. */
  function Merge(old_: Skill, p: SkillPatch): (s: Skill)
    ensures s.name == p.name.GetOr(old_.name)
    ensures s.level == p.level.GetOr(old_.level)
    ensures s.icon == (if p.icon.Some? then p.icon else old_.icon)
  {
    Skill(p.name.GetOr(old_.name), p.level.GetOr(old_.level), if p.icon.Some? then p.icon else old_.icon)
  }

  /** An empty patch leaves a skill as it is, and merging twice is merging once. */
  lemma MergeLaws(s: Skill, p: SkillPatch)
    ensures Merge(s, SkillPatch(None, None, None)) == s
    ensures Merge(Merge(s, p), p) == Merge(s, p)
  {
  }

  /** The skill list after the positional update: only the skill at `i` changes. */
  function PatchSkills(skills: seq<Skill>, i: nat, p: SkillPatch): (s: seq<Skill>)
    requires i < |skills|
    ensures |s| == |skills|
    ensures s[i] == Merge(skills[i], p)
    ensures forall j :: 0 <= j < |s| && j != i ==> s[j] == skills[j]
  {
    skills[i := Merge(skills[i], p)]
  }

  /** The existing category with its skill list replaced. */
  function WithSkills(c: SkillCategory, skills: seq<Skill>): SkillCategory {
    SkillCategory(c.category, c.title, c.order, skills, c.slug)
  }

  /** What a `PATCH` saves: the existing category, its slug kept, with the new list. */
  function PatchRecord(c: SkillCategory, skills: seq<Skill>): (s: SavedCategory)
    ensures s.category == c.category && s.title == c.title && s.order == c.order
    ensures s.skills == skills && s.slug == Some(c.slug)
  {
    SavedCategory(c.category, c.title, c.order, skills, Some(c.slug))
  }

  /**
   * `PATCH`: 401 when not authenticated; 500 when the body cannot be read;
   * 400 when the category is missing, the index is absent or the skill is
   * missing; 404 for a category the table does not have; 500 for a name the
   * table only inherits, whose `skills` cannot be spread; 400 for an index
   * outside the list; otherwise the merged list is saved and returned.
   */
  function PatchOutcome(authenticated: bool, body: Option<PatchBody>, saved: Saved): (r: (Response<Reply>, Saved))
    ensures !authenticated ==> r == (Response(Unauthorized, Failure("Unauthorized")), saved)
    ensures authenticated && body.None? ==> r == (Response(ServerError, Failure("Failed to update skill")), saved)
    ensures authenticated && body.Some? && !(Given(body.value.category) && body.value.skillIndex.Some? && body.value.skill.Some?) ==>
      r == (Response(BadRequest, Failure("Category, skillIndex, and skill are required")), saved)
    ensures authenticated && body.Some? && Given(body.value.category) && body.value.skillIndex.Some? && body.value.skill.Some? ==>
      var lookup := GetSkillCategory(body.value.category.value);
      && (lookup.Null? ==> r == (Response(NotFound, Failure("Category not found")), saved))
      && (lookup.Inherited? ==> r == (Response(ServerError, Failure("Failed to update skill")), saved))
      && (lookup.Own? && !(0 <= body.value.skillIndex.value < |lookup.value.skills|) ==>
            r == (Response(BadRequest, Failure("Invalid skill index")), saved))
    ensures r.0.status == OK <==>
      && authenticated && body.Some? && Given(body.value.category) && body.value.skillIndex.Some? && body.value.skill.Some?
      && GetSkillCategory(body.value.category.value).Own?
      && 0 <= body.value.skillIndex.value < |GetSkillCategory(body.value.category.value).value.skills|
    ensures r.0.status == OK ==>
      var c := GetSkillCategory(body.value.category.value).value;
      var skills := PatchSkills(c.skills, body.value.skillIndex.value, body.value.skill.value);
      && r.0.body == Patched(WithSkills(c, skills))
      && r.1 == Write(saved, body.value.category.value, PatchRecord(c, skills))
  {
    if !authenticated then (Response(Unauthorized, Failure("Unauthorized")), saved)
    else if body.None? then (Response(ServerError, Failure("Failed to update skill")), saved)
    else
      var b := body.value;
      if !Given(b.category) || b.skillIndex.None? || b.skill.None? then
        (Response(BadRequest, Failure("Category, skillIndex, and skill are required")), saved)
      else
        match GetSkillCategory(b.category.value)
        case Null => (Response(NotFound, Failure("Category not found")), saved)
        case Inherited => (Response(ServerError, Failure("Failed to update skill")), saved)
        case Own(c) =>
          var i := b.skillIndex.value;
          if !(0 <= i < |c.skills|) then (Response(BadRequest, Failure("Invalid skill index")), saved)
          else
            var skills := PatchSkills(c.skills, i, b.skill.value);
            (Response(OK, Patched(WithSkills(c, skills))), Write(saved, b.category.value, PatchRecord(c, skills)))
  }

  /** Index 0 is accepted, as the presence test is against `undefined` and not truthiness. */
  lemma PatchIndexZero(key: string, p: SkillPatch, saved: Saved)
    requires key in {"frontend", "backend", "tools"}
    ensures PatchOutcome(true, Some(PatchBody(Some(key), Some(0), Some(p))), saved).0.status == OK
  {
  }

  /**
   * A successful `PATCH` keeps the category's other fields and the length of
   * its list, changes only the skill at the index, and leaves every level a
   * percentage when the patch's level is one.
   */
  lemma PatchShape(key: string, i: int, p: SkillPatch, saved: Saved)
    requires PatchOutcome(true, Some(PatchBody(Some(key), Some(i), Some(p))), saved).0.status == OK
    requires p.level.Some? ==> 0 <= p.level.value <= 100
    ensures var c := GetSkillCategory(key).value;
      var out := PatchOutcome(true, Some(PatchBody(Some(key), Some(i), Some(p))), saved).0.body.category;
      && out.category == c.category && out.title == c.title && out.order == c.order && out.slug == key
      && |out.skills| == |c.skills|
      && (forall j :: 0 <= j < |c.skills| && j != i ==> out.skills[j] == c.skills[j])
      && (forall j :: 0 <= j < |out.skills| ==> LevelInRange(out.skills[j]))
  {
    var c := GetSkillCategory(key).value;
    assert forall j :: 0 <= j < |c.skills| ==> LevelInRange(c.skills[j]);
  }

  /** A rejected `PATCH` saves nothing. */
  lemma PatchRejectedKeepsStore(authenticated: bool, body: Option<PatchBody>, saved: Saved)
    requires PatchOutcome(authenticated, body, saved).0.status != OK
    ensures PatchOutcome(authenticated, body, saved).1 == saved
  {
  }

  /** `GET`: the skills table. */
  function List(): (r: Response<Reply>)
    ensures r.status == OK && r.body == Table(GetSkills())
  {
    Response(OK, Table(GetSkills()))
  }

  // ---------------------------------------------------------------------------
  // The handlers as they run
  // ---------------------------------------------------------------------------

  /** The store of saved skill categories. */
  class SkillFiles {
    var saved: Saved

    constructor (initial: Saved)
      ensures saved == initial
    {
      saved := initial;
    }

    /** `saveSkillCategory`. */
    method SaveSkillCategory(key: string, c: SavedCategory)
      modifies this
      ensures saved == Write(old(saved), key, c)
    {
      saved := saved[key := c];
    }
  }

  /** `[...skills]` followed by the assignment at `i`: a new array, the input left as it was. */
  method CopyAndMerge(skills: seq<Skill>, i: nat, p: SkillPatch) returns (updated: array<Skill>)
    requires i < |skills|
    ensures fresh(updated)
    ensures updated[..] == PatchSkills(skills, i, p)
  {
    updated := new Skill[|skills|](j requires 0 <= j < |skills| => skills[j]);
    updated[i] := Merge(updated[i], p);
  }

  method Put(session: CookieStore, store: SkillFiles, body: Option<PutBody>, now: int) returns (r: Response<Reply>)
    modifies session, store
    ensures session.cookies == AfterCheck(old(session.cookies), CheckSession(old(session.cookies), now))
    ensures (r, store.saved) == PutOutcome(CheckSession(old(session.cookies), now).authenticated, body, old(store.saved))
  {
    var isAuthenticated := session.IsAdminAuthenticated(now);
    if !isAuthenticated {
      return Response(Unauthorized, Failure("Unauthorized"));
    }
    if body.None? {
      return Response(ServerError, Failure("Failed to update skills"));
    }
    var b := body.value;
    if !Given(b.category) || b.data.None? {
      return Response(BadRequest, Failure("Category and data are required"));
    }
    var category := b.category.value;
    if category !in ValidCategories {
      return Response(BadRequest, Failure("Invalid category. Must be frontend, backend, or tools"));
    }
    var data := b.data.value;
    store.SaveSkillCategory(category, SavedCategory(
      if Given(data.category) then data.category.value else category,
      if Given(data.title) then data.title.value else category,
      data.order.GetOr(0),
      data.skills.GetOr([]),
      None));
    return Response(OK, Updated(GetSkills()));
  }

  method Patch(session: CookieStore, store: SkillFiles, body: Option<PatchBody>, now: int) returns (r: Response<Reply>)
    modifies session, store
    ensures session.cookies == AfterCheck(old(session.cookies), CheckSession(old(session.cookies), now))
    ensures (r, store.saved) == PatchOutcome(CheckSession(old(session.cookies), now).authenticated, body, old(store.saved))
  {
    var isAuthenticated := session.IsAdminAuthenticated(now);
    if !isAuthenticated {
      return Response(Unauthorized, Failure("Unauthorized"));
    }
    if body.None? {
      return Response(ServerError, Failure("Failed to update skill"));
    }
    var b := body.value;
    if !Given(b.category) || b.skillIndex.None? || b.skill.None? {
      return Response(BadRequest, Failure("Category, skillIndex, and skill are required"));
    }
    var existing := GetSkillCategory(b.category.value);
    if existing.Null? {
      return Response(NotFound, Failure("Category not found"));
    }
    if existing.Inherited? {
      return Response(ServerError, Failure("Failed to update skill"));
    }
    var c := existing.value;
    var i := b.skillIndex.value;
    if !(0 <= i < |c.skills|) {
      return Response(BadRequest, Failure("Invalid skill index"));
    }
    var updated := CopyAndMerge(c.skills, i, b.skill.value);
    store.SaveSkillCategory(b.category.value, SavedCategory(c.category, c.title, c.order, updated[..], Some(c.slug)));
    return Response(OK, Patched(WithSkills(c, updated[..])));
  }
}
