/**
 * The GitHub API helpers: the repositories-by-technology search, which maps a technology
 * to the GitHub language names that suggest it and keeps the repositories that mention
 * the technology or use one of those languages, and the status check every REST call
 * goes through.
 *
 * The GraphQL request itself is an input: its outcome is a `GraphQLOutcome`.
 */
module GitHubApi {
  import opened Wrappers
  import opened Text
  import opened Seqs

  // ---------------------------------------------------------------------------
  // Technology -> language names

  /** Technologies that are not GitHub primary languages, and the languages that reveal them. */
  const TechMappings: map<string, seq<string>> := map[
    "React" := ["JavaScript", "TypeScript", "JSX"],
    "Node.js" := ["JavaScript", "TypeScript"],
    "Express" := ["JavaScript", "TypeScript"],
    "Next.js" := ["JavaScript", "TypeScript"],
    "TypeScript" := ["TypeScript"],
    "JavaScript" := ["JavaScript"],
    "Python" := ["Python"],
    "Julia" := ["Julia"],
    "C" := ["C"],
    "C++" := ["C++"],
    "Go" := ["Go"],
    "Rust" := ["Rust"],
    "Material-UI" := ["JavaScript", "TypeScript"],
    "FastAPI" := ["Python"],
    "Django" := ["Python"],
    "Flask" := ["Python"],
    "AWS" := ["JavaScript", "TypeScript", "Python", "YAML", "JSON"],
    "Azure" := ["JavaScript", "TypeScript", "Python", "YAML", "JSON"],
    "Docker" := ["Dockerfile", "YAML", "Shell"],
    "Kubernetes" := ["YAML", "JSON"],
    "GraphQL" := ["JavaScript", "TypeScript", "GraphQL"],
    "REST" := ["JavaScript", "TypeScript", "Python"],
    "MongoDB" := ["JavaScript", "TypeScript"],
    "PostgreSQL" := ["SQL", "TypeScript", "JavaScript", "Python"],
    "MySQL" := ["SQL", "JavaScript", "TypeScript", "Python"],
    "Redis" := ["JavaScript", "TypeScript", "Python"],
    "Microservices" := ["JavaScript", "TypeScript", "Python", "Go"],
    "CI/CD" := ["YAML", "Shell", "JavaScript"],
    "GitHub Actions" := ["YAML"],
    "Azure DevOps" := ["YAML", "Shell"],
    "Git" := ["JavaScript", "TypeScript", "Python"],
    "CosmosDB" := ["JavaScript", "TypeScript"],
    "Firebase" := ["JavaScript", "TypeScript"],
    "React Native" := ["JavaScript", "TypeScript"]
  ]

  /**
   * `techMappings[tech] || [tech]`. Every mapped list is a non-empty array, hence truthy,
   * so the fallback applies exactly to unmapped technologies.
   */
  function LanguagesFor(tech: string): (langs: seq<string>)
    ensures tech in TechMappings ==> langs == TechMappings[tech]
    ensures tech !in TechMappings ==> langs == [tech]
    ensures langs != []
  {
    if tech in TechMappings then TechMappings[tech] else [tech]
  }

  /** "Docker" reveals itself through "Dockerfile"; an unmapped name stands for itself. */
  lemma LanguagesForExamples()
    ensures "Dockerfile" in LanguagesFor("Docker")
    ensures LanguagesFor("Svelte") == ["Svelte"]
    ensures LanguagesFor("react") == ["react"]
  {
  }

  // ---------------------------------------------------------------------------
  // The matching predicate

  /** The fields of a repository node that the search and its callers read; `null` and absent are `None`. */
  datatype RepoNode = RepoNode(
    name: string,
    description: Option<string>,
    primaryLanguage: Option<string>,       // primaryLanguage.name
    languages: Option<seq<string>>,        // languages.nodes[*].name
    isPrivate: Option<bool>)

  /** Stage 1: the name or the description mentions the technology, ignoring case. */
  predicate MentionsTech(node: RepoNode, tech: string) {
    Contains(ToLower(node.name), ToLower(tech))
    || (node.description.Some? && Contains(ToLower(node.description.value), ToLower(tech)))
  }

  /** Stage 2: the primary language is one of the technology's languages. */
  predicate PrimaryMatches(node: RepoNode, tech: string) {
    node.primaryLanguage.Some? && node.primaryLanguage.value in LanguagesFor(tech)
  }

  /** Stage 3 for one language node: listed, or equal to the technology ignoring case. */
  predicate LanguageNodeMatches(lang: string, tech: string) {
    lang in LanguagesFor(tech) || ToLower(lang) == ToLower(tech)
  }

  /** `repo.languages.nodes.some(...)` */
  function AnyLanguageMatches(langs: seq<string>, tech: string): (b: bool)
    ensures b <==> exists i :: 0 <= i < |langs| && LanguageNodeMatches(langs[i], tech)
  {
    if langs == [] then false
    else LanguageNodeMatches(langs[0], tech) || AnyLanguageMatches(langs[1..], tech)
  }

  /** The filter callback with its early returns, one stage after another. */
  function Matches(node: RepoNode, tech: string): (b: bool)
    ensures MentionsTech(node, tech) ==> b
    ensures PrimaryMatches(node, tech) ==> b
    ensures node.languages.None? ==> (b <==> MentionsTech(node, tech) || PrimaryMatches(node, tech))
    ensures node.languages.Some? ==>
      (b <==> MentionsTech(node, tech) || PrimaryMatches(node, tech)
              || exists i :: 0 <= i < |node.languages.value| && LanguageNodeMatches(node.languages.value[i], tech))
  {
    if MentionsTech(node, tech) then true
    else if PrimaryMatches(node, tech) then true
    else if node.languages.Some? then AnyLanguageMatches(node.languages.value, tech)
    else false
  }

  /** The filter callback as a function value. */
  function MatchesTech(tech: string): RepoNode -> bool {
    node => Matches(node, tech)
  }

  // ---------------------------------------------------------------------------
  // The request and its failure paths

  /** The parsed body: `data.data?.user?.repositories?.nodes`, `None` when any link is missing. */
  datatype GraphQLOutcome =
    | RequestThrew                               // network error, or `response.json()` rejected
    | NotOk(status: nat)                         // `!response.ok`
    | Body(nodes: Option<seq<RepoNode>>)

  /** `fetchReposByTech`: the matching nodes, or `[]` on every failure path. */
  function FetchReposByTech(outcome: GraphQLOutcome, tech: string): (r: seq<RepoNode>)
    ensures !outcome.Body? || outcome.nodes.None? ==> r == []
    ensures outcome.Body? && outcome.nodes.Some? ==>
      forall x :: x in r <==> x in outcome.nodes.value && Matches(x, tech)
    ensures outcome.Body? && outcome.nodes.Some? ==> r == Filter(outcome.nodes.value, MatchesTech(tech))
  {
    match outcome
    case RequestThrew => []
    case NotOk(_) => []
    case Body(None) => []
    case Body(Some(nodes)) => Filter(nodes, MatchesTech(tech))
  }

  /**
   * A repository whose name mentions the technology is found whatever its languages, and one
   * whose primary language is mapped to the technology is found whatever its name.
   */
  lemma FoundByNameOrPrimaryLanguage(nodes: seq<RepoNode>, tech: string, node: RepoNode)
    requires node in nodes
    requires MentionsTech(node, tech) || PrimaryMatches(node, tech)
    ensures node in FetchReposByTech(Body(Some(nodes)), tech)
  {
  }

  // ---------------------------------------------------------------------------
  // githubFetch

  /** What a REST response carries for the check. */
  datatype HttpResponse<B> = HttpResponse(ok: bool, status: nat, body: B)

  /** `githubFetch`: a non-ok response becomes an error naming the status; any other passes through. */
  function GithubFetch<B>(response: HttpResponse<B>): (r: Result<HttpResponse<B>, string>)
    ensures r.Success? <==> response.ok
    ensures r.Success? ==> r.value == response
    ensures r.Failure? ==> r.error == "GitHub API error: " + NatToString(response.status)
  {
    if !response.ok then Failure("GitHub API error: " + NatToString(response.status))
    else Success(response)
  }
}
