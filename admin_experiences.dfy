/**
 * The experience editor of the admin area: the form's text fields, the
 * conversion between the technologies list and its comma-separated text, the
 * switch between editing an existing experience and creating a new one, and
 * the requests the page sends, recorded in order.
 */
module AdminExperiences {
  import opened Wrappers
  import opened Text
  import opened ContentTypes
  import ExperiencesRoute

  // ---------------------------------------------------------------------------
  // Technologies text
  // ---------------------------------------------------------------------------

  /** `.map((t) => t.trim())`. */
  function TrimAll(parts: seq<string>): (r: seq<string>)
    ensures |r| == |parts| && forall i :: 0 <= i < |r| ==> r[i] == Trim(parts[i])
  {
    seq(|parts|, i requires 0 <= i < |parts| => Trim(parts[i]))
  }

  /** `.filter(Boolean)` on strings: the empty ones are dropped, the rest keep their order. */
  function NonEmpty(parts: seq<string>): (r: seq<string>)
    ensures forall i :: 0 <= i < |r| ==> r[i] != "" && r[i] in parts
    ensures (forall i :: 0 <= i < |parts| ==> parts[i] != "") ==> r == parts
    ensures multiset(r) == multiset(parts)["" := 0]
  {
    if parts == [] then []
    else
      assert parts == [parts[0]] + parts[1..];
      (if parts[0] == "" then [] else [parts[0]]) + NonEmpty(parts[1..])
  }

  /** Filtering a concatenation filters each part. */
  lemma {:induction false} NonEmptyAppend(a: seq<string>, b: seq<string>)
    ensures NonEmpty(a + b) == NonEmpty(a) + NonEmpty(b)
  {
    if a == [] {
      assert a + b == b;
    } else {
      assert (a + b)[0] == a[0] && (a + b)[1..] == a[1..] + b;
      NonEmptyAppend(a[1..], b);
    }
  }

  /** The comma-free text `trim` leaves of a comma-free string. */
  lemma TrimKeepsCommaFree(s: string)
    requires ',' !in s
    ensures ',' !in Trim(s)
  {
    var k := |s| - |TrimStart(s)|;
    assert Trim(s) == s[k..k + |Trim(s)|];
  }

  /** The technologies list of a submitted form: split at commas, trimmed, empty entries dropped. */
  function ParseTechnologies(text: string): (r: seq<string>)
    ensures forall i :: 0 <= i < |r| ==> r[i] != "" && IsTrimmed(r[i]) && ',' !in r[i]
  {
    var parts := Split(text, ',');
    var trimmed := TrimAll(parts);
    assert forall i :: 0 <= i < |trimmed| ==> IsTrimmed(trimmed[i]) && ',' !in trimmed[i] by {
      forall i | 0 <= i < |trimmed| ensures ',' !in trimmed[i] {
        TrimKeepsCommaFree(parts[i]);
      }
    }
    NonEmpty(trimmed)
  }

  /** The technologies text `handleEdit` puts in the form: `technologies.join(", ")`. */
  function JoinTechnologies(xs: seq<string>): string {
    Join(xs, ", ")
  }

  /** Every part but the first with the space of `", "` in front. */
  function Spaced(ys: seq<string>): (r: seq<string>)
    ensures |r| == |ys| && forall i :: 0 <= i < |ys| ==> r[i] == " " + ys[i]
  {
    seq(|ys|, i requires 0 <= i < |ys| => " " + ys[i])
  }

  /** Joining with `", "` is joining with `","` after a space goes in front of every later part. */
  lemma {:induction false} JoinCommaSpace(xs: seq<string>)
    requires |xs| >= 1
    ensures Join(xs, ", ") == Join([xs[0]] + Spaced(xs[1..]), ",")
  {
    if |xs| > 1 {
      JoinCommaSpace(xs[1..]);
      var tail := Spaced(xs[1..][1..]);
      assert xs[1..][1..] == xs[2..];
      JoinHead(" ", xs[1], tail, ",");
      assert Spaced(xs[1..]) == [" " + xs[1]] + tail;
      assert ([xs[0]] + Spaced(xs[1..]))[1..] == Spaced(xs[1..]);
    }
  }

  /** Entries of a technologies list as the form expects them. */
  predicate WellFormedEntries(xs: seq<string>) {
    forall i :: 0 <= i < |xs| ==> xs[i] != "" && IsTrimmed(xs[i]) && ',' !in xs[i]
  }

  /**
   * Editing an experience and submitting the form unchanged sends the
   * technologies list it started with, when every entry is non-empty,
   * trimmed and free of commas.
   */
  lemma {:induction false} ParseJoin(xs: seq<string>)
    requires WellFormedEntries(xs)
    ensures ParseTechnologies(JoinTechnologies(xs)) == xs
  {
    if xs != [] {
      JoinCommaSpace(xs);
      var ys := [xs[0]] + Spaced(xs[1..]);
      forall i | 0 <= i < |ys| ensures ',' !in ys[i] {
        if i > 0 {
          assert ys[i] == " " + xs[i];
        }
      }
      SplitJoin(ys, ',');
      assert Split(JoinTechnologies(xs), ',') == ys;
      forall i | 0 <= i < |ys| ensures Trim(ys[i]) == xs[i] {
        if i == 0 {
          TrimOfTrimmed(xs[0]);
        } else {
          assert ys[i] == " " + xs[i];
          TrimOfSpaced(xs[i]);
        }
      }
      assert TrimAll(ys) == xs;
    }
  }

  /** Text with no comma and no surrounding space becomes a list of at most that one entry. */
  lemma ParseSingle(text: string)
    requires ',' !in text && IsTrimmed(text)
    ensures ParseTechnologies(text) == (if text == "" then [] else [text])
  {
    TrimOfTrimmed(text);
    assert TrimAll([text]) == [text];
  }

  // ---------------------------------------------------------------------------
  // The form
  // ---------------------------------------------------------------------------

  datatype FormData = FormData(year: string, title: string, company: string, description: string, technologies: string)

  const EmptyForm: FormData := FormData("", "", "", "", "")

  /** The form of `handleEdit`: the experience's fields, its technologies joined. */
  function FormOf(exp: Experience): (f: FormData)
    ensures f.year == exp.year && f.title == exp.title && f.company == exp.company
    ensures f.description == exp.description && f.technologies == JoinTechnologies(exp.technologies)
  {
    FormData(exp.year, exp.title, exp.company, exp.description, JoinTechnologies(exp.technologies))
  }

  /** The body `handleSubmit` sends, as the experience routes decode it. */
  function Payload(f: FormData): (b: ExperiencesRoute.ExperienceBody)
    ensures b.year == Some(f.year) && b.title == Some(f.title) && b.company == Some(f.company)
    ensures b.description == Some(f.description)
    ensures b.technologies == Some(ParseTechnologies(f.technologies))
  {
    ExperiencesRoute.ExperienceBody(Some(f.year), Some(f.title), Some(f.company), Some(f.description), Some(ParseTechnologies(f.technologies)))
  }

  /** A submitted form is accepted by `POST` exactly when year, title and company are filled in. */
  lemma PayloadValidation(f: FormData, count: nat, files: ExperiencesRoute.Files)
    ensures ExperiencesRoute.Create(true, Some(Payload(f)), count, files).0.status == 200
      <==> f.year != "" && f.title != "" && f.company != ""
  {
  }

  /**
   * Opening an experience for editing and submitting the form unchanged sends
   * back its fields and, when its entries are well formed, its technologies.
   */
  lemma EditSubmitRoundTrip(exp: Experience)
    requires WellFormedEntries(exp.technologies)
    ensures Payload(FormOf(exp)) == ExperiencesRoute.ExperienceBody(
      Some(exp.year), Some(exp.title), Some(exp.company), Some(exp.description), Some(exp.technologies))
  {
    ParseJoin(exp.technologies);
  }

  datatype Request =
    | ListExperiences
    | Update(id: string, body: ExperiencesRoute.ExperienceBody)
    | Create(body: ExperiencesRoute.ExperienceBody)
    | Delete(id: string)

  /** `if (editingId)`: a set and non-empty id updates, anything else creates. */
  function SubmitRequest(editingId: Option<string>, f: FormData): (r: Request)
    ensures editingId.Some? && editingId.value != "" ==> r == Update(editingId.value, Payload(f))
    ensures editingId.None? || editingId.value == "" ==> r == Create(Payload(f))
  {
    if editingId.Some? && editingId.value != "" then Update(editingId.value, Payload(f)) else Create(Payload(f))
  }

  class ExperiencesEditor {
    var experiences: seq<Experience>
    var loading: bool
    var editingId: Option<string>
    var showNewForm: bool
    var formData: FormData
    var requests: seq<Request>

    constructor ()
      ensures experiences == [] && loading && editingId.None? && !showNewForm && formData == EmptyForm
      ensures requests == []
    {
      experiences := [];
      loading := true;
      editingId := None;
      showNewForm := false;
      formData := EmptyForm;
      requests := [];
    }

    /** Whether the new/edit form is on screen. */
    predicate FormShown()
      reads this
    {
      showNewForm || (editingId.Some? && editingId.value != "")
    }

    /** `fetchExperiences`, answered with `data`. */
    method FetchExperiences(data: seq<Experience>)
      modifies this
      ensures requests == old(requests) + [ListExperiences]
      ensures experiences == data && !loading
      ensures editingId == old(editingId) && showNewForm == old(showNewForm) && formData == old(formData)
    {
      requests := requests + [ListExperiences];
      experiences := data;
      loading := false;
    }

    /** `resetForm`: every field empty, nothing being edited, the new form closed. */
    method ResetForm()
      modifies this
      ensures formData == EmptyForm && editingId.None? && !showNewForm && !FormShown()
      ensures experiences == old(experiences) && loading == old(loading) && requests == old(requests)
    {
      formData := EmptyForm;
      editingId := None;
      showNewForm := false;
    }

    /** The "Add Experience" button: a reset, then the new form opened. */
    method OpenNewForm()
      modifies this
      ensures formData == EmptyForm && editingId.None? && showNewForm && FormShown()
      ensures experiences == old(experiences) && loading == old(loading) && requests == old(requests)
    {
      ResetForm();
      showNewForm := true;
    }

    /** `handleEdit`: the form holds the experience, which is being edited under its slug. */
    method HandleEdit(exp: Experience)
      modifies this
      ensures formData == FormOf(exp) && editingId == Some(exp.slug) && !showNewForm
      ensures experiences == old(experiences) && loading == old(loading) && requests == old(requests)
    {
      formData := FormData(exp.year, exp.title, exp.company, exp.description, JoinTechnologies(exp.technologies));
      editingId := Some(exp.slug);
      showNewForm := false;
    }

    /**
     * `handleSubmit`: a `PUT` for the experience being edited or a `POST` for a
     * new one, then the form is reset and the list fetched again, answered with `refreshed`.
     */
    method HandleSubmit(refreshed: seq<Experience>)
      modifies this
      ensures requests == old(requests) + [SubmitRequest(old(editingId), old(formData)), ListExperiences]
      ensures formData == EmptyForm && editingId.None? && !showNewForm
      ensures experiences == refreshed && !loading
    {
      requests := requests + [SubmitRequest(editingId, formData)];
      ResetForm();
      FetchExperiences(refreshed);
    }

    /** `handleDelete`: nothing unless confirmed; then a `DELETE` and a fresh list. */
    method HandleDelete(slug: string, confirmed: bool, refreshed: seq<Experience>)
      modifies this
      ensures !confirmed ==> requests == old(requests) && experiences == old(experiences) && loading == old(loading)
      ensures confirmed ==> requests == old(requests) + [Delete(slug), ListExperiences] && experiences == refreshed && !loading
      ensures editingId == old(editingId) && showNewForm == old(showNewForm) && formData == old(formData)
    {
      if !confirmed {
        return;
      }
      requests := requests + [Delete(slug)];
      FetchExperiences(refreshed);
    }
  }
}
