/**
 * The skill modal: the résumé experiences that list the skill, each reduced to its heading and
 * at most two key points that mention the skill; the repositories found for the skill split
 * into public and private ones; and the note that counts the private ones.
 */
module SkillDetailModal {
  import opened Wrappers
  import opened Text
  import opened Seqs
  import Entries
  import opened GitHubApi

  // ---------------------------------------------------------------------------
  // Related experiences

  /** An entry of the résumé's experience list. */
  datatype Experience = Experience(
    title: string,
    company: string,
    period: string,
    location: string,
    description: seq<string>,
    techStack: seq<string>)

  /** What the modal shows of a related experience. */
  datatype RelatedExperience = RelatedExperience(
    title: string,
    company: string,
    period: string,
    keyPoints: seq<string>)

  /** `exp => exp.techStack.includes(skill)`: an exact, case-sensitive match. */
  function UsesSkill(skill: string): Experience -> bool {
    (exp: Experience) => skill in exp.techStack
  }

  /** `desc => desc.toLowerCase().includes(skill.toLowerCase())` */
  function MentionsSkill(skill: string): string -> bool {
    (desc: string) => Contains(ToLower(desc), ToLower(skill))
  }

  /** The first two descriptions that mention the skill, in their original order. */
  function KeyPoints(description: seq<string>, skill: string): (r: seq<string>)
    ensures |r| <= 2
    ensures |r| == if |Filter(description, MentionsSkill(skill))| < 2 then |Filter(description, MentionsSkill(skill))| else 2
    ensures r == Filter(description, MentionsSkill(skill))[..|r|]
    ensures forall i :: 0 <= i < |r| ==> r[i] in description && Contains(ToLower(r[i]), ToLower(skill))
  {
    Entries.Take(Filter(description, MentionsSkill(skill)), 2)
  }

  /** The heading of an experience with its key points for the skill. */
  function Summary(exp: Experience, skill: string): RelatedExperience {
    RelatedExperience(exp.title, exp.company, exp.period, KeyPoints(exp.description, skill))
  }

  /**
   * `findRelatedExperiences`: one summary per experience whose tech stack lists the skill, in
   * the order of the experiences, each carrying that experience's title, company and period.
   */
  function FindRelatedExperiences(experiences: seq<Experience>, skill: string): (r: seq<RelatedExperience>)
    ensures |r| == |Filter(experiences, UsesSkill(skill))|
    ensures forall i :: 0 <= i < |r| ==>
      var exp := Filter(experiences, UsesSkill(skill))[i];
      exp in experiences && skill in exp.techStack
      && r[i].title == exp.title && r[i].company == exp.company && r[i].period == exp.period
      && r[i].keyPoints == KeyPoints(exp.description, skill)
  {
    Summaries(Filter(experiences, UsesSkill(skill)), skill)
  }

  /** `.map(exp => ({ ... }))` over the related experiences. */
  function Summaries(related: seq<Experience>, skill: string): (r: seq<RelatedExperience>)
    ensures |r| == |related|
    ensures forall i :: 0 <= i < |r| ==> r[i] == Summary(related[i], skill)
  {
    seq(|related|, i requires 0 <= i < |related| => Summary(related[i], skill))
  }

  /** Mapping distributes over concatenation. */
  lemma SummariesConcat(x: seq<Experience>, y: seq<Experience>, skill: string)
    ensures Summaries(x + y, skill) == Summaries(x, skill) + Summaries(y, skill)
  {
    var r, rx, ry := Summaries(x + y, skill), Summaries(x, skill), Summaries(y, skill);
    forall i | 0 <= i < |r|
      ensures r[i] == (rx + ry)[i]
    {
      if i < |x| {
        assert (x + y)[i] == x[i] && (rx + ry)[i] == rx[i];
      } else {
        assert (x + y)[i] == y[i - |x|] && (rx + ry)[i] == ry[i - |x|];
      }
    }
    assert |r| == |rx + ry|;
  }

  /** Related experiences keep their order: the lists of two parts are concatenated. */
  lemma RelatedConcat(a: seq<Experience>, b: seq<Experience>, skill: string)
    ensures FindRelatedExperiences(a + b, skill) == FindRelatedExperiences(a, skill) + FindRelatedExperiences(b, skill)
  {
    FilterConcat(a, b, UsesSkill(skill));
    SummariesConcat(Filter(a, UsesSkill(skill)), Filter(b, UsesSkill(skill)), skill);
  }

  /**
   * A single experience yields one summary exactly when its tech stack lists the skill by exact
   * name, so "react" in a stack does not relate it to "React".
   */
  lemma RelatedSingle(exp: Experience, skill: string)
    ensures skill in exp.techStack ==> FindRelatedExperiences([exp], skill) == [Summary(exp, skill)]
    ensures skill !in exp.techStack ==> FindRelatedExperiences([exp], skill) == []
  {
    FilterSingleton(exp, UsesSkill(skill));
  }

  // ---------------------------------------------------------------------------
  // Public and private repositories

  /** `repo.isPrivate` is truthy; a missing flag is not. */
  predicate IsPrivate(repo: RepoNode) {
    repo.isPrivate == Some(true)
  }

  /** `repos.filter(repo => !repo.isPrivate)` */
  function PublicRepos(repos: seq<RepoNode>): (r: seq<RepoNode>)
    ensures forall i :: 0 <= i < |r| ==> r[i] in repos && r[i].isPrivate != Some(true)
    ensures forall i :: 0 <= i < |repos| && repos[i].isPrivate != Some(true) ==> repos[i] in r
  {
    Reject(repos, IsPrivate)
  }

  /** `repos.filter(repo => repo.isPrivate)` */
  function PrivateRepos(repos: seq<RepoNode>): (r: seq<RepoNode>)
    ensures forall i :: 0 <= i < |r| ==> r[i] in repos && r[i].isPrivate == Some(true)
    ensures forall i :: 0 <= i < |repos| && repos[i].isPrivate == Some(true) ==> repos[i] in r
  {
    Filter(repos, IsPrivate)
  }

  /** The two lists partition the repositories: each one lands in exactly one of them. */
  lemma ReposPartitioned(repos: seq<RepoNode>)
    ensures multiset(PublicRepos(repos)) + multiset(PrivateRepos(repos)) == multiset(repos)
    ensures |PublicRepos(repos)| + |PrivateRepos(repos)| == |repos|
  {
    Partition(repos, IsPrivate);
  }

  /** Both lists keep the order of the fetched repositories. */
  lemma PartitionKeepsOrder(a: seq<RepoNode>, b: seq<RepoNode>)
    ensures PublicRepos(a + b) == PublicRepos(a) + PublicRepos(b)
    ensures PrivateRepos(a + b) == PrivateRepos(a) + PrivateRepos(b)
  {
    FilterConcat(a, b, IsPrivate);
    RejectConcat(a, b, IsPrivate);
  }

  /** A repository without the flag, or with it false, is public. */
  lemma UnflaggedRepoIsPublic(repo: RepoNode)
    requires repo.isPrivate != Some(true)
    ensures PublicRepos([repo]) == [repo]
    ensures PrivateRepos([repo]) == []
  {
    FilterSingleton(repo, IsPrivate);
  }

  // ---------------------------------------------------------------------------
  // The private-projects note

  /** "N private project(s) also use(s) this technology". */
  datatype PrivateNote = PrivateNote(count: nat, noun: string, verb: string)

  /** The note, shown only when there is at least one private repository; singular exactly for one. */
  function PrivateNoteFor(privateCount: nat): (r: Option<PrivateNote>)
    ensures r.Some? <==> privateCount > 0
    ensures r.Some? ==> r.value.count == privateCount
    ensures r.Some? ==> (r.value.noun == "project" <==> privateCount == 1)
    ensures r.Some? ==> (r.value.noun == "projects" <==> privateCount != 1)
    ensures r.Some? ==> (r.value.verb == "uses" <==> privateCount == 1)
    ensures r.Some? ==> (r.value.verb == "use" <==> privateCount != 1)
  {
    if privateCount > 0 then
      Some(PrivateNote(privateCount,
                       if privateCount == 1 then "project" else "projects",
                       "use" + if privateCount == 1 then "s" else ""))
    else None
  }

  // ---------------------------------------------------------------------------
  // What the modal shows

  /** The repositories part: a spinner while loading, otherwise the public cards and the note. */
  datatype ProjectsPanel =
    | Spinner
    | Loaded(publicRepos: seq<RepoNode>, noPublicMessage: bool, privateNote: Option<PrivateNote>)

  datatype ModalView = ModalView(
    skill: string,
    experiences: seq<RelatedExperience>,
    noExperienceMessage: bool,
    projects: ProjectsPanel)

  /**
   * The component's output: nothing for a missing or empty skill (both falsy), otherwise the
   * related experiences and, once loaded, the public repositories and the private note.
   */
  function Render(skill: Option<string>, experiences: seq<Experience>, repos: seq<RepoNode>, loading: bool)
    : (v: Option<ModalView>)
    ensures v.None? <==> skill.None? || skill.value == ""
    ensures v.Some? ==> v.value.skill == skill.value
    ensures v.Some? ==> v.value.experiences == FindRelatedExperiences(experiences, skill.value)
    ensures v.Some? ==> (v.value.noExperienceMessage <==> v.value.experiences == [])
    ensures v.Some? ==> (v.value.projects.Spinner? <==> loading)
    ensures v.Some? && !loading ==>
      v.value.projects.publicRepos == PublicRepos(repos)
      && (v.value.projects.noPublicMessage <==> PublicRepos(repos) == [])
      && v.value.projects.privateNote == PrivateNoteFor(|PrivateRepos(repos)|)
  {
    match skill
    case None => None
    case Some(name) =>
      if name == "" then None
      else
        var related := FindRelatedExperiences(experiences, name);
        var publicRepos := PublicRepos(repos);
        var panel := if loading then Spinner
                     else Loaded(publicRepos, publicRepos == [], PrivateNoteFor(|PrivateRepos(repos)|));
        Some(ModalView(name, related, related == [], panel))
  }

  /**
   * Once loaded, the public cards and the private count account for every repository, and the
   * note appears exactly when some repository is private.
   */
  lemma LoadedViewAccountsForEveryRepo(skill: string, experiences: seq<Experience>, repos: seq<RepoNode>)
    requires skill != ""
    ensures var panel := Render(Some(skill), experiences, repos, false).value.projects;
      && |panel.publicRepos| + (if panel.privateNote.Some? then panel.privateNote.value.count else 0) == |repos|
      && (panel.privateNote.Some? <==> exists i :: 0 <= i < |repos| && repos[i].isPrivate == Some(true))
  {
    ReposPartitioned(repos);
    var priv := PrivateRepos(repos);
    if |priv| > 0 {
      assert priv[0] in repos;
    }
  }

  // ---------------------------------------------------------------------------
  // Fetching on open

  /**
   * The effect run when `open` or `skill` changes: with the modal open on a non-empty skill the
   * list becomes the search result for the skill (the search returns `[]` on every failure);
   * otherwise the list is left as it was.
   */
  function ReposAfterEffect(open: bool, skill: Option<string>, current: seq<RepoNode>, outcome: GraphQLOutcome)
    : (r: seq<RepoNode>)
    ensures !open || skill.None? || skill.value == "" ==> r == current
    ensures open && skill.Some? && skill.value != "" ==>
      forall i :: 0 <= i < |r| ==> Matches(r[i], skill.value)
    ensures open && skill.Some? && skill.value != "" && (!outcome.Body? || outcome.nodes.None?) ==> r == []
    ensures open && skill.Some? && skill.value != "" && outcome.Body? && outcome.nodes.Some? ==>
      r == Filter(outcome.nodes.value, MatchesTech(skill.value))
      && forall x :: x in r <==> x in outcome.nodes.value && Matches(x, skill.value)
    ensures open && skill.Some? && skill.value != "" ==> r == FetchReposByTech(outcome, skill.value)
  {
    if open && skill.Some? && skill.value != "" then FetchReposByTech(outcome, skill.value)
    else current
  }
}
