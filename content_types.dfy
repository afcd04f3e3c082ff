/**
 * The content records of the portfolio: experiences, skill categories and the
 * site configuration, field for field as the TypeScript interfaces declare them.
 */
module ContentTypes {
  import opened Wrappers

  /** One entry of the experience timeline; `order` is the sort key, `slug` its identifier. */
  datatype Experience = Experience(
    order: int,
    year: string,
    title: string,
    company: string,
    description: string,
    technologies: seq<string>,
    slug: string)

  /** One skill with its proficiency; `icon` is optional. */
  datatype Skill = Skill(name: string, level: int, icon: Option<string>)

  /** A named group of skills; `slug` is the category's key. */
  datatype SkillCategory = SkillCategory(
    category: string,
    title: string,
    order: int,
    skills: seq<Skill>,
    slug: string)

  /** The three fixed skill categories, as `getSkills` returns them. */
  datatype Skills = Skills(frontend: SkillCategory, backend: SkillCategory, tools: SkillCategory)

  datatype PersonalInfo = PersonalInfo(
    name: string,
    tagline: string,
    headline: string,
    subtitle: string,
    aboutTitle: string,
    aboutText: seq<string>,
    location: string,
    available: bool)

  datatype Project = Project(title: string, category: string, description: string, link: string)

  datatype IconType = Github | LinkedIn | Twitter | Email

  /** `label` is a reserved word in Dafny, so the field `label` is called `caption`. */
  datatype SocialLink = SocialLink(caption: string, href: string, iconType: IconType)

  datatype SiteConfig = SiteConfig(
    personalInfo: PersonalInfo,
    projects: seq<Project>,
    socialLinks: seq<SocialLink>)

  /** A level is a percentage. */
  predicate LevelInRange(s: Skill) {
    0 <= s.level <= 100
  }
}
