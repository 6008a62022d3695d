/**
 * The portfolio's skill data: the skills listed by category with their levels, the detailed
 * entries kept for a few skills, and the lookup that falls back to a generic entry for any
 * other skill name.
 */
module PortfolioData {
  import opened Wrappers

  datatype SkillLevel = Beginner | Intermediate | Advanced | Expert

  datatype Skill = Skill(name: string, level: SkillLevel)

  datatype SkillCategory = SkillCategory(name: string, skills: seq<Skill>)

  const SkillCategories: seq<SkillCategory> := [
    SkillCategory("Languages", [
      Skill("TypeScript", Expert),
      Skill("Python", Advanced),
      Skill("Node.js", Expert),
      Skill("Julia", Intermediate),
      Skill("Rust", Intermediate)]),
    SkillCategory("Frontend", [
      Skill("React", Expert),
      Skill("Next.js", Advanced),
      Skill("Material-UI", Advanced),
      Skill("Responsive Design", Expert)]),
    SkillCategory("Backend & Infrastructure", [
      Skill("AWS", Advanced),
      Skill("Azure", Intermediate),
      Skill("Docker", Advanced),
      Skill("Kubernetes", Intermediate),
      Skill("API Design", Expert)]),
    SkillCategory("Data & AI", [
      Skill("PostgreSQL", Advanced),
      Skill("MongoDB", Advanced),
      Skill("Redis", Intermediate),
      Skill("Kafka", Intermediate),
      Skill("Machine Learning", Intermediate),
      Skill("LLM Integration", Advanced)])
  ]

  datatype SkillProject = SkillProject(name: string, description: string, isPublic: bool, url: Option<string>)

  datatype SkillExperience = SkillExperience(company: string, role: string, description: string)

  datatype SkillWithDetails = SkillWithDetails(
    name: string,
    level: SkillLevel,
    projects: seq<SkillProject>,
    experiences: seq<SkillExperience>)

  /** The skills with stored details. */
  const SkillDetailsMap: map<string, SkillWithDetails> := map[
    "TypeScript" := SkillWithDetails("TypeScript", Expert, [
      SkillProject("Terminal CV", "Modern portfolio with retro terminal aesthetics", true,
                   Some("https://github.com/pmatheusvinhas/terminal-cv")),
      SkillProject("Enterprise Dashboard", "Real-time analytics platform for enterprise clients", false, None)
    ], [
      SkillExperience("Tech Innovators Inc.", "Senior Software Engineer",
                      "Used TypeScript to build scalable frontend applications and type-safe backend services.")
    ]),
    "React" := SkillWithDetails("React", Expert, [
      SkillProject("Terminal CV", "Interactive portfolio with terminal-like interface", true,
                   Some("https://github.com/pmatheusvinhas/terminal-cv")),
      SkillProject("Client Portal", "Secure client-facing dashboard with real-time updates", false, None)
    ], [
      SkillExperience("Tech Innovators Inc.", "Senior Software Engineer",
                      "Developed complex React applications with custom hooks and optimized rendering."),
      SkillExperience("Web Systems Ltd", "Frontend Developer",
                      "Built responsive UIs with React and implemented state management solutions.")
    ]),
    "Julia" := SkillWithDetails("Julia", Intermediate, [
      SkillProject("TokenCompression.jl", "Julia package for token sequence compression with BPE", true,
                   Some("https://github.com/pmatheusvinhas/TokenCompression.jl")),
      SkillProject("PromptVeil", "Framework with Julia-powered compression engine", true,
                   Some("https://github.com/pmatheusvinhas/PromptVeil"))
    ], [
      SkillExperience("AI Solutions Group", "Software Developer",
                      "Leveraged Julia for high-performance data processing components.")
    ])
  ]

  /** Every stored entry is filed under its own name. */
  lemma StoredEntriesNamedByKey()
    ensures forall k :: k in SkillDetailsMap ==> SkillDetailsMap[k].name == k
  {
  }

  /**
   * `getSkillDetails`: the stored entry when there is one (every stored entry is truthy),
   * otherwise an intermediate-level entry with no projects and no experiences. Either way
   * the entry carries the name asked for.
   */
  function GetSkillDetails(skillName: string): (d: SkillWithDetails)
    ensures d.name == skillName
    ensures skillName in SkillDetailsMap ==> d == SkillDetailsMap[skillName]
    ensures skillName !in SkillDetailsMap ==> d.level == Intermediate && d.projects == [] && d.experiences == []
  {
    StoredEntriesNamedByKey();
    if skillName in SkillDetailsMap then SkillDetailsMap[skillName]
    else SkillWithDetails(skillName, Intermediate, [], [])
  }

  /** The lookup is case-sensitive: a differently cased name gets the generic entry. */
  lemma LookupIsCaseSensitive()
    ensures GetSkillDetails("typescript").projects == []
    ensures GetSkillDetails("TypeScript").projects != []
  {
    assert "typescript" != "TypeScript" by {
      assert "typescript"[0] != "TypeScript"[0];
    }
    assert "typescript" != "React" && "typescript" != "Julia";
  }

  /** The level the first category listing `name` gives it. */
  function CategoryLevel(categories: seq<SkillCategory>, name: string): (r: Option<SkillLevel>)
    ensures r.Some? <==> exists c, s :: c in categories && s in c.skills && s.name == name
  {
    if categories == [] then None
    else
      match SkillLevelIn(categories[0].skills, name)
      case Some(level) => Some(level)
      case None => CategoryLevel(categories[1..], name)
  }

  /** The level of the first skill called `name`. */
  function SkillLevelIn(skills: seq<Skill>, name: string): (r: Option<SkillLevel>)
    ensures r.Some? <==> exists s :: s in skills && s.name == name
    ensures r.Some? ==> exists s :: s in skills && s.name == name && s.level == r.value
  {
    if skills == [] then None
    else if skills[0].name == name then Some(skills[0].level)
    else SkillLevelIn(skills[1..], name)
  }

  lemma TypeScriptAndJuliaLevels()
    ensures CategoryLevel(SkillCategories, "TypeScript") == Some(Expert)
    ensures CategoryLevel(SkillCategories, "Julia") == Some(Intermediate)
  {
    var languages := SkillCategories[0].skills;
    assert SkillLevelIn(languages, "TypeScript") == Some(Expert);
    assert SkillLevelIn(languages, "Julia") == Some(Intermediate) by {
      assert languages[3..][0].name == "Julia";
    }
  }

  lemma ReactLevel()
    ensures CategoryLevel(SkillCategories, "React") == Some(Expert)
  {
    var languages := SkillCategories[0].skills;
    var frontend := SkillCategories[1].skills;
    assert SkillLevelIn(languages, "React") == None by {
      assert forall s :: s in languages ==> s.name != "React";
    }
    assert SkillLevelIn(frontend, "React") == Some(Expert);
    assert SkillCategories[1..][0].skills == frontend;
  }

  /** The stored levels agree with the categories: TypeScript and React expert, Julia intermediate. */
  lemma DetailsAgreeWithCategories()
    ensures forall k :: k in SkillDetailsMap ==> CategoryLevel(SkillCategories, k) == Some(SkillDetailsMap[k].level)
  {
    forall k | k in SkillDetailsMap
      ensures CategoryLevel(SkillCategories, k) == Some(SkillDetailsMap[k].level)
    {
      assert k == "TypeScript" || k == "React" || k == "Julia";
      if k == "React" {
        ReactLevel();
      } else {
        TypeScriptAndJuliaLevels();
      }
    }
  }
}
