/**
 * The figures the admin dashboard shows: the three statistics, the most
 * recent experiences and the availability status, computed from the sorted
 * experience list, the skills table and the site configuration.
 */
module AdminDashboard {
  import opened ContentTypes
  import opened Content
  import AdminSkills

  /** Every skill of the table, frontend first, then backend, then tools. */
  function AllSkills(s: Skills): seq<Skill> {
    s.frontend.skills + s.backend.skills + s.tools.skills
  }

  /** `totalSkills`. */
  function TotalSkills(s: Skills): (n: nat)
    ensures n == |AllSkills(s)|
  {
    |s.frontend.skills| + |s.backend.skills| + |s.tools.skills|
  }

  /** Adding a skill to any category raises the total by one, removing one in range lowers it by one. */
  lemma TotalAfterEdits(s: Skills, k: AdminSkills.Key, i: nat)
    ensures TotalSkills(AdminSkills.WithList(s, k, AdminSkills.CategoryOf(s, k).skills + [AdminSkills.NewSkill])) == TotalSkills(s) + 1
    ensures i < |AdminSkills.CategoryOf(s, k).skills| ==>
      TotalSkills(AdminSkills.WithList(s, k, AdminSkills.Splice(AdminSkills.CategoryOf(s, k).skills, i))) == TotalSkills(s) - 1
  {
    if i < |AdminSkills.CategoryOf(s, k).skills| {
      AdminSkills.SpliceRemovesOne(AdminSkills.CategoryOf(s, k).skills, i);
    }
  }

  datatype Stat = Stat(caption: string, value: int, href: string)

  /** `stats`: experiences, skills and projects, in that order, each linking to its page. */
  function Stats(experiences: seq<Experience>, skills: Skills, config: SiteConfig): (r: seq<Stat>)
    ensures |r| == 3
    ensures r[0] == Stat("Experiences", |experiences|, "/admin/experiences")
    ensures r[1] == Stat("Skills", |AllSkills(skills)|, "/admin/skills")
    ensures r[2] == Stat("Projects", |config.projects|, "#")
  {
    [Stat("Experiences", |experiences|, "/admin/experiences"),
     Stat("Skills", TotalSkills(skills), "/admin/skills"),
     Stat("Projects", |config.projects|, "#")]
  }

  /** `experiences.slice(0, 3)`. */
  function Recent(experiences: seq<Experience>): (r: seq<Experience>)
    ensures |r| == (if |experiences| < 3 then |experiences| else 3)
    ensures forall i :: 0 <= i < |r| ==> r[i] == experiences[i]
  {
    if |experiences| < 3 then experiences else experiences[..3]
  }

  /** From a list sorted by order, the recent ones are those with the lowest orders. */
  lemma RecentHaveLowestOrders(experiences: seq<Experience>)
    requires SortedByOrder(experiences)
    ensures forall i, j :: 0 <= i < |Recent(experiences)| <= j < |experiences| ==>
      Recent(experiences)[i].order <= experiences[j].order
  {
  }

  /** The status line of the site card. */
  function StatusText(config: SiteConfig): (t: string)
    ensures config.personalInfo.available <==> t == "Available for projects"
    ensures !config.personalInfo.available <==> t == "Not available"
  {
    if config.personalInfo.available then "Available for projects" else "Not available"
  }
}
