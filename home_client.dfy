/**
 * The decisions the home page makes while rendering: the contact link, the
 * split of the about title into spans with the last word in italics, the
 * last-item flag of the timeline, the availability banner and the offsets
 * at which each skill category's items are numbered.
 */
module HomeClient {
  import opened Wrappers
  import opened Text
  import opened ContentTypes

  // ---------------------------------------------------------------------------
  // Contact link
  // ---------------------------------------------------------------------------

  /** `socialLinks.find(l => l.iconType === 'email')`, by index. */
  function FirstEmail(links: seq<SocialLink>): (r: Option<nat>)
    ensures r.Some? ==> r.value < |links| && links[r.value].iconType == Email
    ensures r.Some? ==> forall j :: 0 <= j < r.value ==> links[j].iconType != Email
    ensures r.None? ==> forall j :: 0 <= j < |links| ==> links[j].iconType != Email
  {
    if links == [] then None
    else if links[0].iconType == Email then Some(0)
    else match FirstEmail(links[1..])
      case None => None
      case Some(k) => Some(k + 1)
  }

  const FallbackAddress: string := "your@email.com"

  /** The address behind the link: the first `mailto:` taken out of the href, or the fallback when that leaves nothing. */
  function ContactAddress(links: seq<SocialLink>): (a: string)
    ensures a != ""
    ensures FirstEmail(links).None? ==> a == FallbackAddress
    ensures FirstEmail(links).Some? ==>
      var stripped := ReplaceFirst(links[FirstEmail(links).value].href, "mailto:", "");
      a == (if stripped == "" then FallbackAddress else stripped)
  {
    match FirstEmail(links)
    case None => FallbackAddress
    case Some(k) =>
      var stripped := ReplaceFirst(links[k].href, "mailto:", "");
      if stripped == "" then FallbackAddress else stripped
  }

  /** The href of the contact button. */
  function ContactHref(links: seq<SocialLink>): (h: string)
    ensures h == "mailto:" + ContactAddress(links)
  {
    "mailto:" + ContactAddress(links)
  }

  /** An email link `mailto:addr` gives back `mailto:addr`; a bare `mailto:` gives the fallback. */
  lemma ContactOfMailto(links: seq<SocialLink>, addr: string)
    requires FirstEmail(links).Some? && links[FirstEmail(links).value].href == "mailto:" + addr
    ensures ContactHref(links) == "mailto:" + (if addr == "" then FallbackAddress else addr)
  {
    ReplaceLeading("mailto:", addr);
  }

  /** An email link whose href has no `mailto:` gives that href as the address, when it is not empty. */
  lemma ContactOfBareAddress(links: seq<SocialLink>)
    requires FirstEmail(links).Some?
    requires IndexOf(links[FirstEmail(links).value].href, "mailto:").None?
    requires links[FirstEmail(links).value].href != ""
    ensures ContactHref(links) == "mailto:" + links[FirstEmail(links).value].href
  {
  }

  // ---------------------------------------------------------------------------
  // About title
  // ---------------------------------------------------------------------------

  datatype Span = Span(text: string, italic: bool)

  function Concat(spans: seq<Span>): string {
    if spans == [] then "" else spans[0].text + Concat(spans[1..])
  }

  /** The spans for `words`: each word but the last followed by a space, the last one in italics. */
  function WordSpans(words: seq<string>): (spans: seq<Span>)
    ensures |spans| == |words|
    ensures forall i :: 0 <= i < |spans| ==> (spans[i].italic <==> i == |spans| - 1)
  {
    seq(|words|, i requires 0 <= i < |words| =>
      if i == |words| - 1 then Span(words[i], true) else Span(words[i] + " ", false))
  }

  /** The spans of the about title, one per space-separated word. */
  function TitleSpans(title: string): (spans: seq<Span>)
    ensures |spans| == |Split(title, ' ')| >= 1
  {
    WordSpans(Split(title, ' '))
  }

  lemma {:induction false} ConcatWordSpans(words: seq<string>)
    requires |words| >= 1
    ensures Concat(WordSpans(words)) == Join(words, " ")
  {
    if |words| > 1 {
      var spans := WordSpans(words);
      assert spans[1..] == WordSpans(words[1..]);
      ConcatWordSpans(words[1..]);
      assert spans[0].text == words[0] + " ";
    }
  }

  /** The rendered spans spell out the title, with exactly one italic span. */
  lemma TitleSpansSpellTitle(title: string)
    ensures Concat(TitleSpans(title)) == title
    ensures TitleSpans(title)[|TitleSpans(title)| - 1].italic
  {
    var words := Split(title, ' ');
    ConcatWordSpans(words);
    JoinSplit(title, ' ');
  }

  // ---------------------------------------------------------------------------
  // Timeline, banner and skill offsets
  // ---------------------------------------------------------------------------

  /** `isLast` of the timeline item at `i`. */
  predicate IsLast(i: nat, count: nat) {
    i == count - 1
  }

  /** A timeline of `count` items styles exactly one of them as the last, and none when it is empty. */
  lemma OneLastItem(count: nat)
    ensures |set i | 0 <= i < count && IsLast(i, count)| == (if count == 0 then 0 else 1)
  {
    var last := set i | 0 <= i < count && IsLast(i, count);
    if count == 0 {
      assert last == {};
    } else {
      assert last == {count - 1};
    }
  }

  /** The availability banner is shown exactly when the site says it is available. */
  function ShowsBanner(info: PersonalInfo): (shown: bool)
    ensures shown <==> info.available
  {
    info.available
  }

  datatype Category = Frontend | Backend | Tools

  /** The `startIndex` of each skill category. */
  function StartIndex(c: Category): (n: nat)
    ensures n % 4 == 0 && n < 12
  {
    match c
    case Frontend => 0
    case Backend => 4
    case Tools => 8
  }

  /** With at most four skills per category, no two skills on the page share a number. */
  lemma SkillNumbersDistinct(c: Category, d: Category, i: nat, j: nat)
    requires i < 4 && j < 4
    requires StartIndex(c) + i == StartIndex(d) + j
    ensures c == d && i == j
  {
  }
}
