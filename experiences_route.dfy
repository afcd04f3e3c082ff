/**
 * The experience collection route: `GET` lists the experiences, `POST`
 * validates a new one, numbers it after the existing ones, names it after
 * its order and title, and saves it. Saved experiences go to a store of
 * files, keyed by file name, that a save replaces or adds one entry of.
 */
module ExperiencesRoute {
  import opened Wrappers
  import opened Storage
  import opened Text
  import opened Http
  import opened ContentTypes
  import opened Content
  import opened Auth

  /** The fields of a `POST` body; an absent field is `None`. */
  datatype ExperienceBody = ExperienceBody(
    year: Option<string>,
    title: Option<string>,
    company: Option<string>,
    description: Option<string>,
    technologies: Option<seq<string>>)

  /** What `saveExperience` stores: an experience without its slug, which is the file's name. */
  datatype ExperienceData = ExperienceData(
    order: int,
    year: string,
    title: string,
    company: string,
    description: string,
    technologies: seq<string>)

  type Files = map<string, ExperienceData>

  datatype Reply =
    | Failure(error: string)
    | Created(slug: string, experience: Experience)
    | Listing(experiences: seq<Experience>)

  /** A string field that is present and not empty, so truthy. */
  predicate Given(f: Option<string>) {
    f.Some? && f.value != ""
  }

  /** The saved record with its slug added. */
  function WithSlug(d: ExperienceData, slug: string): (e: Experience)
    ensures e.slug == slug && e.order == d.order && e.title == d.title
    ensures e.year == d.year && e.company == d.company
    ensures e.description == d.description && e.technologies == d.technologies
  {
    Experience(d.order, d.year, d.title, d.company, d.description, d.technologies, slug)
  }

  /** The record a valid body is saved as, numbered `order`; description and technologies default to empty. */
  function NewRecord(b: ExperienceBody, order: int): (d: ExperienceData)
    requires Given(b.year) && Given(b.title) && Given(b.company)
    ensures d.order == order && d.year == b.year.value && d.title == b.title.value && d.company == b.company.value
    ensures d.description == b.description.GetOr("")
    ensures d.technologies == b.technologies.GetOr([])
  {
    ExperienceData(order, b.year.value, b.title.value, b.company.value, b.description.GetOr(""), b.technologies.GetOr([]))
  }

  /**
   * `POST` against `count` existing experiences: 401 when not authenticated,
   * before the body is read; 500 when the body cannot be read; 400 when year,
   * title or company is missing or empty; otherwise the record is saved as
   * number `count + 1` under its generated file name and returned with that
   * slug. Only the last changes the store.
   */
  function Create(authenticated: bool, body: Option<ExperienceBody>, count: nat, files: Files): (r: (Response<Reply>, Files))
    ensures !authenticated ==> r == (Response(Unauthorized, Failure("Unauthorized")), files)
    ensures authenticated && body.None? ==> r == (Response(ServerError, Failure("Failed to create experience")), files)
    ensures r.0.status == BadRequest <==>
      authenticated && body.Some? && !(Given(body.value.year) && Given(body.value.title) && Given(body.value.company))
    ensures r.0.status == BadRequest ==> r == (Response(BadRequest, Failure("Year, title, and company are required")), files)
    ensures r.0.status == OK <==>
      authenticated && body.Some? && Given(body.value.year) && Given(body.value.title) && Given(body.value.company)
    ensures r.0.status == OK ==>
      var slug := GenerateExperienceFilename(count + 1, body.value.title.value);
      && r.1 == Write(files, slug, NewRecord(body.value, count + 1))
      && r.0.body == Created(slug, WithSlug(NewRecord(body.value, count + 1), slug))
  {
    if !authenticated then (Response(Unauthorized, Failure("Unauthorized")), files)
    else if body.None? then (Response(ServerError, Failure("Failed to create experience")), files)
    else
      var b := body.value;
      if !(Given(b.year) && Given(b.title) && Given(b.company)) then
        (Response(BadRequest, Failure("Year, title, and company are required")), files)
      else
        var order := count + 1;
        var slug := GenerateExperienceFilename(order, b.title.value);
        var data := NewRecord(b, order);
        (Response(OK, Created(slug, WithSlug(data, slug))), Write(files, slug, data))
  }

  /**
   * A created experience is what was saved plus its slug; the slug names the
   * file it was saved under, its leading digits read back as the new order,
   * and what follows the first hyphen is a well-formed slug of the title.
   */
  lemma CreatedIsSaved(body: ExperienceBody, count: nat, files: Files)
    requires Given(body.year) && Given(body.title) && Given(body.company)
    ensures var r := Create(true, Some(body), count, files);
      && r.0.body.Created?
      && r.0.body.slug in r.1
      && r.0.body.experience == WithSlug(r.1[r.0.body.slug], r.0.body.slug)
      && r.0.body.experience.order == count + 1
      && var head := Split(r.0.body.slug, '-')[0];
         (forall i :: 0 <= i < |head| ==> IsDigit(head[i])) && DigitsValue(head) == count + 1
  {
    FilenameRecoversOrder(count + 1, body.title.value);
  }

  /** Every file other than the new one is left as it was. */
  lemma CreateKeepsOtherFiles(authenticated: bool, body: Option<ExperienceBody>, count: nat, files: Files, k: string)
    requires k in files
    requires body.Some? && body.value.title.Some? ==> k != GenerateExperienceFilename(count + 1, body.value.title.value)
    ensures var f := Create(authenticated, body, count, files).1; k in f && f[k] == files[k]
  {
  }

  /** `GET`: the experiences `getExperiences` returns. */
  function List(experiences: seq<Experience>): (r: Response<Reply>)
    ensures r.status == OK && r.body.Listing? && r.body.experiences == experiences
  {
    Response(OK, Listing(experiences))
  }

  /** The store of saved experience files. */
  class ExperienceFiles {
    var files: Files

    constructor (initial: Files)
      ensures files == initial
    {
      files := initial;
    }

    /** `saveExperience`. */
    method SaveExperience(slug: string, data: ExperienceData)
      modifies this
      ensures files == Write(old(files), slug, data)
    {
      files := files[slug := data];
    }
  }

  /** `GET` as it runs: the list comes back sorted by order, the same records as before. */
  method Get(content: ContentStore) returns (r: Response<Reply>)
    modifies content.experiencesData
    ensures r == List(content.experiencesData[..])
    ensures SortedByOrder(r.body.experiences)
    ensures multiset(r.body.experiences) == multiset(old(content.experiencesData[..]))
  {
    var experiences := content.GetExperiences();
    return Response(OK, Listing(experiences));
  }

  /** `POST` as it runs: the session is checked first, the count comes from `getExperiences`. */
  method Post(session: CookieStore, content: ContentStore, store: ExperienceFiles, body: Option<ExperienceBody>, now: int)
    returns (r: Response<Reply>)
    modifies session, content.experiencesData, store
    ensures var authenticated := CheckSession(old(session.cookies), now).authenticated;
      && session.cookies == AfterCheck(old(session.cookies), CheckSession(old(session.cookies), now))
      && (r, store.files) == Create(authenticated, body, content.experiencesData.Length, old(store.files))
    ensures multiset(content.experiencesData[..]) == multiset(old(content.experiencesData[..]))
    ensures r.status == OK ==> SortedByOrder(content.experiencesData[..])
    ensures r.status != OK ==> content.experiencesData[..] == old(content.experiencesData[..])
  {
    var isAuthenticated := session.IsAdminAuthenticated(now);
    if !isAuthenticated {
      return Response(Unauthorized, Failure("Unauthorized"));
    }
    if body.None? {
      return Response(ServerError, Failure("Failed to create experience"));
    }
    var b := body.value;
    if !(Given(b.year) && Given(b.title) && Given(b.company)) {
      return Response(BadRequest, Failure("Year, title, and company are required"));
    }
    var experiences := content.GetExperiences();
    var order := |experiences| + 1;
    var slug := GenerateExperienceFilename(order, b.title.value);
    var data := ExperienceData(order, b.year.value, b.title.value, b.company.value, b.description.GetOr(""), b.technologies.GetOr([]));
    assert data == NewRecord(b, content.experiencesData.Length + 1);
    store.SaveExperience(slug, data);
    r := Response(OK, Created(slug, WithSlug(data, slug)));
    assert (r, store.files) == Create(true, body, content.experiencesData.Length, old(store.files));
  }
}
