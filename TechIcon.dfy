/**
 * The technology icon: a devicon image for the technologies that have one, and otherwise a
 * generic icon chosen by the first keyword the name contains.
 */
module TechIcon {
  import opened Wrappers
  import opened Text

  const DevIconBase: string := "https://cdn.jsdelivr.net/gh/devicons/devicon/icons/"

  /** A file of the devicon set. */
  function DevIcon(path: string): (url: string)
    ensures |url| == |DevIconBase| + |path| > 0
    ensures url[|DevIconBase|..] == path
  {
    DevIconBase + path
  }

  /** `techIcons` */
  const TechIcons: map<string, string> := map[
    "Python" := DevIcon("python/python-original.svg"),
    "React" := DevIcon("react/react-original.svg"),
    "React Native" := DevIcon("react/react-original.svg"),
    "TypeScript" := DevIcon("typescript/typescript-original.svg"),
    "JavaScript" := DevIcon("javascript/javascript-original.svg"),
    "Node.js" := DevIcon("nodejs/nodejs-original.svg"),
    "FastAPI" := DevIcon("fastapi/fastapi-original.svg"),
    "C++" := DevIcon("cplusplus/cplusplus-original.svg"),
    "C" := DevIcon("c/c-original.svg"),
    "Docker" := DevIcon("docker/docker-original.svg"),
    "AWS" := DevIcon("amazonwebservices/amazonwebservices-plain-wordmark.svg"),
    "Azure" := DevIcon("azure/azure-original.svg"),
    "Firebase" := DevIcon("firebase/firebase-plain.svg"),
    "GitHub Actions" := DevIcon("github/github-original-wordmark.svg"),
    "Git" := DevIcon("git/git-original.svg"),
    "PostgreSQL" := DevIcon("postgresql/postgresql-original.svg"),
    "MySQL" := DevIcon("mysql/mysql-original.svg"),
    "MongoDB" := DevIcon("mongodb/mongodb-original.svg"),
    "CosmosDB" := DevIcon("azure/azure-original.svg")
  ]

  /** The generic icons. */
  datatype FallbackIcon = CodeIcon | CloudIcon | StorageIcon | AssessmentIcon | BuildIcon | LanguageIcon

  predicate MentionsApi(tech: string) {
    Contains(tech, "API") || Contains(tech, "REST")
  }

  predicate MentionsCloud(tech: string) {
    Contains(tech, "Cloud") || Contains(tech, "AWS") || Contains(tech, "Azure")
  }

  predicate MentionsStorage(tech: string) {
    Contains(tech, "SQL") || Contains(tech, "DB")
  }

  predicate MentionsTesting(tech: string) {
    Contains(tech, "Testing") || Contains(tech, "TDD") || Contains(tech, "BDD")
  }

  predicate MentionsBuild(tech: string) {
    Contains(tech, "DevOps") || Contains(tech, "CI/CD")
  }

  /**
   * `getFallbackIcon`: the icon of the first group whose keyword the name contains (case-sensitive),
   * in the order code, cloud, storage, assessment, build; the language icon when none does.
   */
  function FallbackIconFor(tech: string): (icon: FallbackIcon)
    ensures icon == CodeIcon <==> MentionsApi(tech)
    ensures icon == CloudIcon <==> !MentionsApi(tech) && MentionsCloud(tech)
    ensures icon == StorageIcon <==> !MentionsApi(tech) && !MentionsCloud(tech) && MentionsStorage(tech)
    ensures icon == AssessmentIcon <==>
      !MentionsApi(tech) && !MentionsCloud(tech) && !MentionsStorage(tech) && MentionsTesting(tech)
    ensures icon == BuildIcon <==>
      !MentionsApi(tech) && !MentionsCloud(tech) && !MentionsStorage(tech) && !MentionsTesting(tech)
      && MentionsBuild(tech)
  {
    if MentionsApi(tech) then CodeIcon
    else if MentionsCloud(tech) then CloudIcon
    else if MentionsStorage(tech) then StorageIcon
    else if MentionsTesting(tech) then AssessmentIcon
    else if MentionsBuild(tech) then BuildIcon
    else LanguageIcon
  }

  /** What the component renders. */
  datatype Icon = Image(url: string) | Fallback(icon: FallbackIcon)

  /** The image when `techIcons` has a URL for the exact name (every URL is non-empty), else the fallback. */
  function IconFor(tech: string): (icon: Icon)
    ensures icon.Image? <==> tech in TechIcons
    ensures icon.Image? ==> icon.url == TechIcons[tech]
    ensures icon.Fallback? ==> icon.icon == FallbackIconFor(tech)
  {
    if tech in TechIcons && TechIcons[tech] != "" then Image(TechIcons[tech])
    else Fallback(FallbackIconFor(tech))
  }

  /** Every keyword starts with a capital letter, so a name without capitals gets the language icon. */
  lemma NoCapitalsMeansLanguageIcon(tech: string)
    requires forall i :: 0 <= i < |tech| ==> !('A' <= tech[i] <= 'Z')
    ensures FallbackIconFor(tech) == LanguageIcon
  {
    CapitalNotContained(tech, "API");
    CapitalNotContained(tech, "REST");
    CapitalNotContained(tech, "Cloud");
    CapitalNotContained(tech, "AWS");
    CapitalNotContained(tech, "Azure");
    CapitalNotContained(tech, "SQL");
    CapitalNotContained(tech, "DB");
    CapitalNotContained(tech, "Testing");
    CapitalNotContained(tech, "TDD");
    CapitalNotContained(tech, "BDD");
    CapitalNotContained(tech, "DevOps");
    CapitalNotContained(tech, "CI/CD");
  }

  /** A keyword starting with a capital does not occur in a name without capitals. */
  lemma CapitalNotContained(tech: string, keyword: string)
    requires forall i :: 0 <= i < |tech| ==> !('A' <= tech[i] <= 'Z')
    requires keyword != [] && 'A' <= keyword[0] <= 'Z'
    ensures !Contains(tech, keyword)
  {
    NotContainedWithoutChar(tech, keyword, 0);
  }

  /** The match is case-sensitive: "rest" is not "REST", and gets the language icon. */
  lemma LowercaseRestGetsLanguageIcon()
    ensures FallbackIconFor("rest") == LanguageIcon
  {
    NoCapitalsMeansLanguageIcon("rest");
  }

  /**
   * The cloud test comes before the build test: a name made of "Azure" and a rest without 'P' or
   * 'R' (so without "API" or "REST") gets the cloud icon, even when the rest says "DevOps" as in
   * "Azure DevOps" (see `AzureDevOpsMentionsBuild`).
   */
  lemma AzureToolsGetCloudIcon(rest: string)
    requires 'P' !in rest && 'R' !in rest
    ensures FallbackIconFor("Azure" + rest) == CloudIcon
  {
    var tech := "Azure" + rest;
    assert !MentionsApi(tech) by {
      assert 'P' !in tech && 'R' !in tech;
      NotContainedWithoutChar(tech, "API", 1);
      NotContainedWithoutChar(tech, "REST", 0);
    }
    assert MentionsCloud(tech) by {
      assert tech[..5] == "Azure";
      assert StartsWith(tech, "Azure");
    }
  }

  /** Such a name whose rest says "DevOps" also passes the build test, which is never reached. */
  lemma AzureDevOpsMentionsBuild(rest: string)
    requires Contains(rest, "DevOps")
    ensures MentionsBuild("Azure" + rest)
  {
    var tech := "Azure" + rest;
    ContainedOccurs(rest, "DevOps");
    var i: nat :| OccursAt(rest, "DevOps", i);
    assert tech[5 + i..5 + i + 6] == rest[i..i + 6];
    OccurrenceIsContained(tech, "DevOps", 5 + i);
  }

  /** "Azure DevOps" gets the cloud icon although it says "DevOps". */
  lemma AzureDevOpsGetsCloudIcon()
    ensures FallbackIconFor("Azure DevOps") == CloudIcon
  {
    AzureToolsGetCloudIcon(" DevOps");
    assert "Azure" + " DevOps" == "Azure DevOps";
  }
}
