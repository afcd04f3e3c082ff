/**
 * The content store of the edge deployment: the embedded experience and skill
 * tables, their listing and lookup operations, and the slug and filename
 * derivation used to name new experiences.
 */
module Content {
  import opened Wrappers
  import opened Text
  import opened ContentTypes

  // ---------------------------------------------------------------------------
  // Slugs
  // ---------------------------------------------------------------------------

  /** `toLowerCase` on one character, ASCII letters only. */
  function LowerChar(c: char): char {
    if 'A' <= c <= 'Z' then (c as int + 32) as char else c
  }

  function LowerCase(s: string): (r: string)
    ensures |r| == |s| && forall i :: 0 <= i < |s| ==> r[i] == LowerChar(s[i])
  {
    seq(|s|, i requires 0 <= i < |s| => LowerChar(s[i]))
  }

  /** The characters the pattern `[a-z0-9]` matches. */
  predicate IsSlugChar(c: char) {
    'a' <= c <= 'z' || IsDigit(c)
  }

  /** The rest of `s` after a leading run of characters outside `[a-z0-9]`. */
  function SkipRun(s: string): (r: string)
    ensures |r| <= |s| && r == s[|s| - |r|..]
    ensures r == [] || IsSlugChar(r[0])
    ensures forall i :: 0 <= i < |s| - |r| ==> !IsSlugChar(s[i])
  {
    if s != [] && !IsSlugChar(s[0]) then
      var r := SkipRun(s[1..]);
      assert forall i :: 1 <= i < |s| ==> s[i] == s[1..][i - 1];
      r
    else s
  }

  /** `s.replace(/[^a-z0-9]+/g, "-")`: every maximal run outside `[a-z0-9]` becomes one hyphen. */
  function Collapse(s: string): string
    decreases |s|
  {
    if s == [] then []
    else if IsSlugChar(s[0]) then [s[0]] + Collapse(s[1..])
    else "-" + Collapse(SkipRun(s[1..]))
  }

  /** `s.replace(/(^-|-$)/g, "")`: one leading and one trailing hyphen are removed. */
  function TrimHyphens(s: string): string {
    var a := if s != [] && s[0] == '-' then s[1..] else s;
    if a != [] && a[|a| - 1] == '-' then a[..|a| - 1] else a
  }

  /** `generateSlug`. */
  function GenerateSlug(text: string): string {
    TrimHyphens(Collapse(LowerCase(text)))
  }

  /** Only `a-z`, `0-9` and `-`, and no two hyphens in a row. */
  predicate HyphenSeparated(s: string) {
    && (forall i :: 0 <= i < |s| ==> IsSlugChar(s[i]) || s[i] == '-')
    && (forall i :: 0 <= i < |s| - 1 ==> !(s[i] == '-' && s[i + 1] == '-'))
  }

  /** A well-formed slug: hyphen-separated runs of `[a-z0-9]`, no hyphen at either end. */
  predicate IsSlug(s: string) {
    HyphenSeparated(s) && (s == [] || (s[0] != '-' && s[|s| - 1] != '-'))
  }

  /** Putting a character in front keeps a string hyphen-separated, unless it doubles a hyphen. */
  lemma HyphenSeparatedCons(c: char, t: string)
    requires HyphenSeparated(t)
    requires IsSlugChar(c) || (c == '-' && (t == [] || t[0] != '-'))
    ensures HyphenSeparated([c] + t)
  {
    var u := [c] + t;
    assert forall i :: 1 <= i < |u| ==> u[i] == t[i - 1];
  }

  lemma {:induction false} CollapseShape(s: string)
    ensures HyphenSeparated(Collapse(s))
    ensures s == [] || IsSlugChar(s[0]) ==> Collapse(s) == [] || IsSlugChar(Collapse(s)[0])
    decreases |s|
  {
    if s == [] {
    } else if IsSlugChar(s[0]) {
      CollapseShape(s[1..]);
      HyphenSeparatedCons(s[0], Collapse(s[1..]));
    } else {
      var r := SkipRun(s[1..]);
      CollapseShape(r);
      var c := Collapse(r);
      assert Collapse(s) == "-" + c;
      assert c == [] || IsSlugChar(c[0]);
      HyphenSeparatedCons('-', c);
    }
  }

  lemma TrimHyphensShape(s: string)
    requires HyphenSeparated(s)
    ensures IsSlug(TrimHyphens(s))
  {
    var a := if s != [] && s[0] == '-' then s[1..] else s;
    assert HyphenSeparated(a);
    assert a == [] || a[0] != '-';
    var b := if a != [] && a[|a| - 1] == '-' then a[..|a| - 1] else a;
    assert HyphenSeparated(b);
    if b != [] && a != [] && a[|a| - 1] == '-' {
      assert b[|b| - 1] == a[|a| - 2];
    }
  }

  /** Every slug consists of `a-z`, `0-9` and single hyphens between them. */
  lemma SlugIsWellFormed(text: string)
    ensures IsSlug(GenerateSlug(text))
  {
    CollapseShape(LowerCase(text));
    TrimHyphensShape(Collapse(LowerCase(text)));
  }

  lemma {:induction false} CollapseOfHyphenSeparated(s: string)
    requires HyphenSeparated(s)
    ensures Collapse(s) == s
    decreases |s|
  {
    if s != [] {
      assert HyphenSeparated(s[1..]);
      CollapseOfHyphenSeparated(s[1..]);
      if !IsSlugChar(s[0]) {
        assert s[1..] == [] || IsSlugChar(s[1]);
        assert SkipRun(s[1..]) == s[1..];
        assert s == "-" + s[1..];
      }
    }
  }

  lemma LowerCaseOfSlugAlphabet(s: string)
    requires HyphenSeparated(s)
    ensures LowerCase(s) == s
  {
  }

  /** A well-formed slug is left unchanged by `generateSlug`. */
  lemma SlugOfSlug(s: string)
    requires IsSlug(s)
    ensures GenerateSlug(s) == s
  {
    LowerCaseOfSlugAlphabet(s);
    CollapseOfHyphenSeparated(s);
  }

  /** The fixed points of `generateSlug` are exactly the well-formed slugs. */
  lemma SlugFixedPoints(s: string)
    ensures GenerateSlug(s) == s <==> IsSlug(s)
  {
    SlugIsWellFormed(s);
    if IsSlug(s) {
      SlugOfSlug(s);
    }
  }

  /** `generateSlug` is idempotent. */
  lemma SlugIdempotent(text: string)
    ensures GenerateSlug(GenerateSlug(text)) == GenerateSlug(text)
  {
    SlugIsWellFormed(text);
    SlugOfSlug(GenerateSlug(text));
  }

  /** The letters and digits of `s`, in order. */
  function Alphanumerics(s: string): (r: string)
    ensures forall i :: 0 <= i < |r| ==> IsSlugChar(r[i])
  {
    if s == [] then [] else (if IsSlugChar(s[0]) then [s[0]] else []) + Alphanumerics(s[1..])
  }

  lemma {:induction false} AlphanumericsAppend(s: string, t: string)
    ensures Alphanumerics(s + t) == Alphanumerics(s) + Alphanumerics(t)
  {
    if s == [] {
      assert s + t == t;
    } else {
      assert (s + t)[0] == s[0] && (s + t)[1..] == s[1..] + t;
      AlphanumericsAppend(s[1..], t);
      var h := if IsSlugChar(s[0]) then [s[0]] else [];
      assert Alphanumerics(s + t) == h + Alphanumerics(s[1..] + t);
      assert Alphanumerics(s) == h + Alphanumerics(s[1..]);
    }
  }

  lemma {:induction false} AlphanumericsSkipRun(s: string)
    ensures Alphanumerics(SkipRun(s)) == Alphanumerics(s)
  {
    if s != [] && !IsSlugChar(s[0]) {
      AlphanumericsSkipRun(s[1..]);
    }
  }

  lemma {:induction false} AlphanumericsCollapse(s: string)
    ensures Alphanumerics(Collapse(s)) == Alphanumerics(s)
    decreases |s|
  {
    if s != [] {
      if IsSlugChar(s[0]) {
        AlphanumericsCollapse(s[1..]);
        AlphanumericsAppend([s[0]], Collapse(s[1..]));
      } else {
        var r := SkipRun(s[1..]);
        AlphanumericsCollapse(r);
        AlphanumericsSkipRun(s[1..]);
        AlphanumericsAppend("-", Collapse(r));
      }
    }
  }

  lemma AlphanumericsTrimHyphens(s: string)
    ensures Alphanumerics(TrimHyphens(s)) == Alphanumerics(s)
  {
    assert "-"[1..] == [] && Alphanumerics("-") == [];
    var a := if s != [] && s[0] == '-' then s[1..] else s;
    if s != [] && s[0] == '-' {
      assert s == "-" + s[1..];
      AlphanumericsAppend("-", s[1..]);
    }
    assert Alphanumerics(a) == Alphanumerics(s);
    if a != [] && a[|a| - 1] == '-' {
      assert a == a[..|a| - 1] + "-";
      AlphanumericsAppend(a[..|a| - 1], "-");
    }
  }

  /** No letter or digit of the lower-cased title is lost or reordered by `generateSlug`. */
  lemma SlugKeepsAlphanumerics(text: string)
    ensures Alphanumerics(GenerateSlug(text)) == Alphanumerics(LowerCase(text))
  {
    AlphanumericsCollapse(LowerCase(text));
    AlphanumericsTrimHyphens(Collapse(LowerCase(text)));
  }

  // ---------------------------------------------------------------------------
  // Experience filenames
  // ---------------------------------------------------------------------------

  /** `order.toString().padStart(2, "0")`. */
  function PaddedOrder(order: int): string {
    PadStart(IntToString(order), 2, '0')
  }

  /** `generateExperienceFilename`: the padded order, a hyphen, and the slug of the title. */
  function GenerateExperienceFilename(order: int, title: string): string {
    PaddedOrder(order) + "-" + GenerateSlug(title)
  }

  /** Orders 0 to 9 gain one leading zero; larger orders are written as they are. */
  lemma PaddedOrderShape(order: nat)
    ensures order < 10 ==> PaddedOrder(order) == ['0', DigitChar(order)]
    ensures order >= 10 ==> PaddedOrder(order) == IntToString(order)
  {
    DecimalDigits(order);
  }

  lemma {:induction false} DigitsValueLeadingZero(d: string)
    requires forall i :: 0 <= i < |d| ==> IsDigit(d[i])
    ensures var z := "0" + d; (forall i :: 0 <= i < |z| ==> IsDigit(z[i])) && DigitsValue(z) == DigitsValue(d)
  {
    if d != [] {
      var z := "0" + d;
      assert z[..|z| - 1] == "0" + d[..|d| - 1];
      DigitsValueLeadingZero(d[..|d| - 1]);
    }
  }

  /** The padded order is made of decimal digits that read back as the order. */
  lemma PaddedOrderValue(order: nat)
    ensures var p := PaddedOrder(order); (forall i :: 0 <= i < |p| ==> IsDigit(p[i])) && DigitsValue(p) == order
  {
    DigitsValueOfToRadix(order);
    DecimalDigits(order);
    var d := IntToString(order);
    assert d == ToRadix(order, 10);
    if order < 10 {
      assert |d| == 1;
      assert PaddedOrder(order) == "0" + d;
      DigitsValueLeadingZero(d);
    } else {
      assert PaddedOrder(order) == d;
    }
  }

  /** The part of a filename before its first hyphen reads back as the order. */
  lemma FilenameRecoversOrder(order: nat, title: string)
    ensures var head := Split(GenerateExperienceFilename(order, title), '-')[0];
      (forall i :: 0 <= i < |head| ==> IsDigit(head[i])) && DigitsValue(head) == order
  {
    var p := PaddedOrder(order);
    PaddedOrderValue(order);
    assert '-' !in p by {
      forall i | 0 <= i < |p| ensures p[i] != '-' {
        assert IsDigit(p[i]);
      }
    }
    SplitBeforeSeparator(p, GenerateSlug(title), '-');
    assert GenerateExperienceFilename(order, title) == p + ['-'] + GenerateSlug(title);
  }

  /** After the first hyphen a filename holds a well-formed slug of the title. */
  lemma FilenameSlugPart(order: nat, title: string)
    ensures var f := GenerateExperienceFilename(order, title); var n := |PaddedOrder(order)|;
      n >= 2 && |f| > n && f[n] == '-' && f[n + 1..] == GenerateSlug(title) && IsSlug(f[n + 1..])
  {
    SlugIsWellFormed(title);
    var f := GenerateExperienceFilename(order, title);
    var n := |PaddedOrder(order)|;
    assert f[n + 1..] == GenerateSlug(title);
  }

  lemma {:induction false} CollapseAfterRun(a: string, b: string)
    requires forall i :: 0 <= i < |a| ==> IsSlugChar(a[i])
    ensures Collapse(a + b) == a + Collapse(b)
  {
    if a == [] {
      assert a + b == b;
    } else {
      var ab := a + b;
      assert ab[0] == a[0] && IsSlugChar(a[0]) && ab[1..] == a[1..] + b;
      assert Collapse(ab) == [a[0]] + Collapse(a[1..] + b);
      CollapseAfterRun(a[1..], b);
      assert [a[0]] + (a[1..] + Collapse(b)) == a + Collapse(b);
    }
  }

  /** Two words of `[a-z0-9]` separated by one space collapse to the words joined by a hyphen. */
  lemma {:induction false} CollapseTwoWords(a: string, b: string)
    requires forall i :: 0 <= i < |a| ==> IsSlugChar(a[i])
    requires forall i :: 0 <= i < |b| ==> IsSlugChar(b[i])
    ensures Collapse(a + " " + b) == a + "-" + b
  {
    assert a + " " + b == a + (" " + b);
    CollapseAfterRun(a, " " + b);
    assert (" " + b)[1..] == b;
    assert SkipRun(b) == b;
    CollapseOfHyphenSeparated(b);
  }

  /** Nothing is trimmed from a string without a hyphen at either end. */
  lemma TrimHyphensUnchanged(s: string)
    requires s != [] && s[0] != '-' && s[|s| - 1] != '-'
    ensures TrimHyphens(s) == s
  {
  }

  /** ... and nothing is trimmed from them when both words are non-empty. */
  lemma {:induction false} SlugOfTwoWords(a: string, b: string)
    requires a != [] && forall i :: 0 <= i < |a| ==> IsSlugChar(a[i])
    requires b != [] && forall i :: 0 <= i < |b| ==> IsSlugChar(b[i])
    ensures TrimHyphens(Collapse(a + " " + b)) == a + "-" + b
  {
    CollapseTwoWords(a, b);
    JoinedEnds(a, b);
    TrimHyphensUnchanged(a + "-" + b);
  }

  /** Two runs of slug characters joined by a hyphen neither start nor end with one. */
  lemma JoinedEnds(a: string, b: string)
    requires a != [] && IsSlugChar(a[0])
    requires b != [] && IsSlugChar(b[|b| - 1])
    ensures var c := a + "-" + b; c[0] != '-' && c[|c| - 1] != '-'
  {
    var c := a + "-" + b;
    assert c[0] == a[0] && c[|c| - 1] == b[|b| - 1];
  }

  /** The slug of the third embedded experience's title. */
  lemma SlugExample()
    ensures GenerateSlug("Junior Developer") == "junior" + "-" + "developer"
  {
    var title, lower := "Junior Developer", "junior developer";
    assert forall i :: 0 <= i < |title| ==> LowerChar(title[i]) == lower[i];
    assert LowerCase(title) == lower;
    assert lower == "junior" + " " + "developer";
    SlugOfTwoWords("junior", "developer");
  }

  /** The filename of the third embedded experience. */
  lemma FilenameExample()
    ensures GenerateExperienceFilename(3, "Junior Developer") == "03-junior-developer"
  {
    assert "03" + "-" + ("junior" + "-" + "developer") == "03-junior-developer";
    var pad, slug := PaddedOrder(3), GenerateSlug("Junior Developer");
    assert pad == "03" by {
      assert IntToString(3) == [DigitChar(3)] == "3";
    }
    SlugExample();
    assert GenerateExperienceFilename(3, "Junior Developer") == pad + "-" + slug;
  }

  // ---------------------------------------------------------------------------
  // The embedded tables
  // ---------------------------------------------------------------------------

  /** The description texts of the embedded experiences, by position. */
  function Description(k: int): string {
    if k == 1 then "Leading the frontend architecture for a modern SaaS platform. Building scalable component libraries and implementing complex animations and interactions."
    else if k == 2 then "Developed and maintained multiple web applications from concept to deployment. Collaborated with design teams to create pixel-perfect implementations."
    else if k == 3 then "Started my professional journey building websites for various clients. Learned the fundamentals of web development and client communication."
    else "Took on freelance projects while completing my studies. Built small business websites and learned to manage client relationships."
  }

  function EmbeddedExperiences(): seq<Experience> {
    [ Experience(1, "2024 - Present", "Senior Frontend Developer", "Tech Company",
        Description(1),
        ["React", "TypeScript", "Next.js", "Framer Motion"], "01-senior-developer"),
      Experience(2, "2022 - 2024", "Full Stack Developer", "Startup Inc",
        Description(2),
        ["Vue.js", "Node.js", "PostgreSQL", "AWS"], "02-fullstack-developer"),
      Experience(3, "2020 - 2022", "Junior Developer", "Agency Name",
        Description(3),
        ["JavaScript", "HTML/CSS", "WordPress", "PHP"], "03-junior-developer"),
      Experience(4, "2019", "Freelance Developer", "Self-Employed",
        Description(4),
        ["React", "Firebase", "Figma"], "04-freelance-developer") ]
  }

  function SkillsData(): Skills {
    Skills(
      SkillCategory("Frontend", "Frontend Development", 1,
        [Skill("React / Next.js", 95, None), Skill("TypeScript", 90, None),
         Skill("Tailwind CSS", 92, None), Skill("Framer Motion", 85, None)], "frontend"),
      SkillCategory("Backend", "Backend Development", 2,
        [Skill("Node.js", 85, None), Skill("Python", 75, None),
         Skill("PostgreSQL", 80, None), Skill("REST APIs", 88, None)], "backend"),
      SkillCategory("Tools", "Tools & Design", 3,
        [Skill("Git / GitHub", 90, None), Skill("Figma", 82, None),
         Skill("Docker", 70, None), Skill("CI/CD", 75, None)], "tools"))
  }

  predicate SortedByOrder(s: seq<Experience>) {
    forall i, j :: 0 <= i < j < |s| ==> s[i].order <= s[j].order
  }

  // ---------------------------------------------------------------------------
  // Skill lookups
  // ---------------------------------------------------------------------------

  /** The three keys of the skills table. */
  const SkillKeys: seq<string> := ["frontend", "backend", "tools"]

  /** The skills table as the object it is in the source: key to category. */
  function SkillsByKey(s: Skills): map<string, SkillCategory> {
    map["frontend" := s.frontend, "backend" := s.backend, "tools" := s.tools]
  }

  /** `getSkills`: the three categories, each under its own key, every level a percentage. */
  function GetSkills(): (s: Skills)
    ensures SkillsByKey(s).Keys == {"frontend", "backend", "tools"}
    ensures forall k :: k in SkillsByKey(s) ==> SkillsByKey(s)[k].slug == k
    ensures forall k, i :: k in SkillsByKey(s) && 0 <= i < |SkillsByKey(s)[k].skills| ==>
      LevelInRange(SkillsByKey(s)[k].skills[i])
  {
    SkillsData()
  }

  /**
   * The names that every JavaScript object inherits from `Object.prototype`;
   * indexing the skills table with one of them yields a function or an object,
   * not `undefined`.
   */
  const ObjectPrototypeKeys: set<string> := {
    "constructor", "hasOwnProperty", "isPrototypeOf", "propertyIsEnumerable",
    "toLocaleString", "toString", "valueOf", "__proto__",
    "__defineGetter__", "__defineSetter__", "__lookupGetter__", "__lookupSetter__"
  }

  /** The result of `table[key] || null` on a plain object. */
  datatype Lookup<T> = Own(value: T) | Inherited | Null

  /** `getSkillCategory`. */
  function GetSkillCategory(slug: string): (r: Lookup<SkillCategory>)
    ensures r.Own? <==> slug in {"frontend", "backend", "tools"}
    ensures r.Own? ==> r.value.slug == slug && r.value == SkillsByKey(GetSkills())[slug]
    ensures r.Null? <==> slug !in {"frontend", "backend", "tools"} && slug !in ObjectPrototypeKeys
  {
    var table := SkillsByKey(SkillsData());
    if slug in table then Own(table[slug])
    else if slug in ObjectPrototypeKeys then Inherited
    else Null
  }

  // ---------------------------------------------------------------------------
  // The experience list, sorted in place
  // ---------------------------------------------------------------------------

  /** `Array.prototype.find` by slug. */
  function FindBySlug(xs: seq<Experience>, slug: string): (r: Option<nat>)
    ensures r.Some? ==>
      r.value < |xs| && xs[r.value].slug == slug && forall j :: 0 <= j < r.value ==> xs[j].slug != slug
    ensures r.None? ==> forall j :: 0 <= j < |xs| ==> xs[j].slug != slug
  {
    if xs == [] then None
    else if xs[0].slug == slug then Some(0)
    else match FindBySlug(xs[1..], slug)
      case None => None
      case Some(k) => Some(k + 1)
  }

  /**
   * The state inside one insertion step: `s` is sorted except that the element
   * at `j` may be out of place towards the front, and it is no larger than
   * anything after it.
   */
  predicate SortedAround(s: seq<Experience>, j: nat) {
    && (forall k, l :: 0 <= k < l < |s| && k != j && l != j ==> s[k].order <= s[l].order)
    && (forall l :: j < l < |s| ==> s[j].order <= s[l].order)
  }

  /** Exchanging two elements keeps the same elements. */
  lemma SwapKeepsMultiset<T>(s: seq<T>, i: nat, j: nat)
    requires i < |s| && j < |s|
    ensures multiset(s[i := s[j]][j := s[i]]) == multiset(s)
  {
  }

  /** Before a pass, the new element is the only one that may be out of place. */
  lemma SortedAroundStart(s: seq<Experience>)
    requires |s| > 0 && SortedByOrder(s[..|s| - 1])
    ensures SortedAround(s, |s| - 1)
  {
    assert forall k :: 0 <= k < |s| - 1 ==> s[k] == s[..|s| - 1][k];
  }

  /** Exchanging the misplaced element with a larger predecessor moves it one place down. */
  lemma SortedAroundSwap(s: seq<Experience>, j: nat)
    requires 0 < j < |s| && SortedAround(s, j) && s[j - 1].order > s[j].order
    ensures SortedAround(s[j - 1 := s[j]][j := s[j - 1]], j - 1)
  {
  }

  /** Once its predecessor is no larger, the misplaced element is in place. */
  lemma SortedAroundEnd(s: seq<Experience>, j: nat)
    requires j < |s| && SortedAround(s, j) && (j == 0 || s[j - 1].order <= s[j].order)
    ensures SortedByOrder(s)
  {
  }

  /**
   * One pass of the in-place sort: the element at `i` is moved down past every
   * larger one before it, so the first `i + 1` elements end up in order.
   */
  method InsertNext(a: array<Experience>, i: nat)
    requires i < a.Length && SortedByOrder(a[..i])
    modifies a
    ensures SortedByOrder(a[..i + 1])
    ensures multiset(a[..]) == multiset(old(a[..]))
  {
    assert a[..i + 1][..i] == a[..i];
    SortedAroundStart(a[..i + 1]);
    var j := i;
    while j > 0 && a[j - 1].order > a[j].order
      invariant 0 <= j <= i
      invariant SortedAround(a[..i + 1], j)
      invariant multiset(a[..]) == multiset(old(a[..]))
    {
      ghost var before := a[..];
      ghost var prefix := a[..i + 1];
      a[j - 1], a[j] := a[j], a[j - 1];
      SwapKeepsMultiset(before, j - 1, j);
      assert a[..] == before[j - 1 := before[j]][j := before[j - 1]];
      SortedAroundSwap(prefix, j);
      assert a[..i + 1] == prefix[j - 1 := prefix[j]][j := prefix[j - 1]];
      j := j - 1;
    }
    SortedAroundEnd(a[..i + 1], j);
  }

  /** A fresh array holding `s`. */
  method ArrayOf(s: seq<Experience>) returns (a: array<Experience>)
    ensures fresh(a) && a[..] == s
  {
    a := new Experience[|s|](i requires 0 <= i < |s| => s[i]);
  }

  /** The module-level experience array, which `getExperiences` sorts in place. */
  class ContentStore {
    const experiencesData: array<Experience>

    /** The records the array starts out with. */
    constructor (records: seq<Experience>)
      ensures fresh(experiencesData)
      ensures experiencesData[..] == records
    {
      var a := ArrayOf(records);
      experiencesData := a;
    }

    /** `getExperiences`: sorts the array by `order` and returns it. */
    method GetExperiences() returns (list: seq<Experience>)
      modifies experiencesData
      ensures list == experiencesData[..]
      ensures SortedByOrder(list)
      ensures multiset(list) == multiset(old(experiencesData[..]))
    {
      var a := experiencesData;
      var i := 0;
      while i < a.Length
        invariant 0 <= i <= a.Length
        invariant SortedByOrder(a[..i])
        invariant multiset(a[..]) == multiset(old(a[..]))
      {
        InsertNext(a, i);
        i := i + 1;
      }
      list := a[..];
    }

    /** `getExperience`: the first record carrying `slug`, or null when none does. */
    function GetExperience(slug: string): (r: Option<Experience>)
      reads experiencesData
      ensures r.Some? ==> r.value.slug == slug && r.value in experiencesData[..]
      ensures r.None? <==> forall j :: 0 <= j < experiencesData.Length ==> experiencesData[j].slug != slug
      ensures r.Some? ==>
        exists k :: 0 <= k < experiencesData.Length && experiencesData[k] == r.value &&
          (forall j :: 0 <= j < k ==> experiencesData[j].slug != slug)
    {
      match FindBySlug(experiencesData[..], slug)
      case None => None
      case Some(k) => Some(experiencesData[k])
    }
  }

  /** Module load: the array initialised with the embedded records. */
  method LoadContent() returns (store: ContentStore)
    ensures fresh(store) && fresh(store.experiencesData)
    ensures store.experiencesData[..] == EmbeddedExperiences()
  {
    store := new ContentStore(EmbeddedExperiences());
  }
}
