/**
 * The terminal-style project browser: a list of featured projects, a selection moved by the
 * arrow keys and clamped to the list, a simulated clone that shows the details once it
 * completes, and the one-off fetch of each project's GitHub statistics.
 *
 * The 1500 ms timer of the clone is a separate step, `CompleteClone`; the per-project HTTP
 * request is a function from repository path to response.
 */
module TerminalInnovations {
  import opened Wrappers
  import opened Text

  datatype AnimationType = Encryption | Compression | TerminalAnimation | Performance

  /** The statistics kept from a successful repository request. */
  datatype GithubData = GithubData(stars: int, forks: int, updated: string, language: Option<string>)

  datatype Project = Project(
    name: string,
    repo: string,
    description: string,
    shortDescription: string,
    technologies: seq<string>,
    animationType: AnimationType,
    keyFeatures: seq<string>,
    githubData: Option<GithubData>)

  /** `featuredProjects`: the list the component starts from, with no GitHub data yet. */
  const FeaturedProjects: seq<Project> := [
    Project("PromptVeil", "https://github.com/PromptVeil/PromptVeil",
      "A comprehensive framework for secure, efficient storage and retrieval of AI conversations",
      "Securely store and search LLM conversations with hardware acceleration",
      ["Python", "Julia", "Rust", "CUDA"], Encryption,
      ["Hardware-accelerated encryption", "Token-aware compression",
       "Semantic search capabilities", "Distributed storage support"], None),
    Project("TokenCompression.jl", "https://github.com/pmatheusvinhas/TokenCompression.jl",
      "A Julia package for efficient compression of token sequences using Byte Pair Encoding (BPE)",
      "Compress token sequences with optimized Julia implementation",
      ["Julia", "BPE", "CUDA", "Threading"], Compression,
      ["Byte Pair Encoding implementation", "GPU acceleration support",
       "Multi-threaded processing", "Model sharing capabilities"], None),
    Project("terminal-cv", "https://github.com/pmatheusvinhas/terminal-cv",
      "A modern portfolio template with a retro terminal theme, built using React, TypeScript, and Material-UI",
      "This very website! Terminal-themed portfolio with ATS optimization",
      ["React", "TypeScript", "Material-UI", "Framer Motion"], TerminalAnimation,
      ["Terminal-inspired UI", "ATS-optimized resume export",
       "Interactive visualization", "Responsive design"], None),
    Project("webformance-guardian", "https://github.com/pmatheusvinhas/webformance-guardian",
      "Monitor and optimize web performance metrics with automated testing and alerting",
      "Track core web vitals and performance metrics with customizable alerts",
      ["Node.js", "Express", "Lighthouse", "Chart.js"], Performance,
      ["Core Web Vitals monitoring", "Automated performance testing",
       "Customizable alert thresholds", "Historical performance tracking"], None)
  ]

  // ---------------------------------------------------------------------------
  // Keyboard navigation

  /** The keys the handler distinguishes; every other key is ignored. */
  datatype Key = ArrowUp | ArrowDown | Enter | OtherKey

  /**
   * The new selection after a key: up moves towards 0 unless already there, down moves towards
   * the last project unless already there (`prev < length - 1`, so never on an empty list).
   */
  function StepIndex(index: nat, count: nat, key: Key): (r: nat)
    ensures index < count ==> r < count
    ensures r == index || r + 1 == index || r == index + 1
    ensures key.ArrowUp? ==> r <= index
    ensures key.ArrowDown? ==> r >= index
    ensures !key.ArrowUp? && !key.ArrowDown? ==> r == index
  {
    match key
    case ArrowUp => if index > 0 then index - 1 else index
    case ArrowDown => if index < count - 1 then index + 1 else index
    case _ => index
  }

  /** The selection after a sequence of keys. */
  function Navigate(index: nat, count: nat, keys: seq<Key>): nat {
    if keys == [] then index
    else StepIndex(Navigate(index, count, keys[..|keys| - 1]), count, keys[|keys| - 1])
  }

  /** Starting inside a non-empty list, no sequence of keys leaves it. */
  lemma {:induction false} NavigateStaysInRange(index: nat, count: nat, keys: seq<Key>)
    requires index < count
    ensures Navigate(index, count, keys) < count
  {
    if keys != [] {
      NavigateStaysInRange(index, count, keys[..|keys| - 1]);
    }
  }

  /** The selection stops at the ends of the list. */
  lemma SelectionClampsAtEnds(count: nat)
    requires count > 0
    ensures StepIndex(0, count, ArrowUp) == 0
    ensures StepIndex(count - 1, count, ArrowDown) == count - 1
    ensures count > 1 ==> StepIndex(0, count, ArrowDown) == 1
  {
  }

  /** `n` presses of ArrowDown from the top select the n-th project, or the last one. */
  lemma {:induction false} DownPresses(count: nat, n: nat)
    requires count > 0
    ensures Navigate(0, count, seq(n, _ => ArrowDown)) == if n < count then n else count - 1
  {
    if n > 0 {
      var keys := seq(n, _ => ArrowDown);
      assert keys[..n - 1] == seq(n - 1, _ => ArrowDown);
      DownPresses(count, n - 1);
    }
  }

  // ---------------------------------------------------------------------------
  // Repository path and statistics

  const GithubPrefix: string := "https://github.com/"

  /** `repo.replace('https://github.com/', '')`: the first occurrence of the prefix removed. */
  function RepoPath(repo: string): (path: string)
    ensures StartsWith(repo, GithubPrefix) ==> path == repo[|GithubPrefix|..]
    ensures !Contains(repo, GithubPrefix) ==> path == repo
    ensures IndexOf(repo, GithubPrefix).Some? ==>
      var i := IndexOf(repo, GithubPrefix).value; path == repo[..i] + repo[i + |GithubPrefix|..]
  {
    ReplaceFirst(repo, GithubPrefix, "")
  }

  /** The path of a GitHub URL is what follows the prefix. */
  lemma RepoPathOfGithubUrl(owner: string, name: string)
    ensures RepoPath(GithubPrefix + owner + "/" + name) == owner + "/" + name
  {
    var url := GithubPrefix + owner + "/" + name;
    assert url[..|GithubPrefix|] == GithubPrefix;
    assert url[|GithubPrefix|..] == owner + "/" + name;
  }

  /** What the request for one repository gives: a thrown error, a non-ok status, or the data. */
  datatype RepoResponse =
    | RequestFailed
    | NotOk(status: nat)
    | Ok(stars: int, forks: int, updated: string, language: Option<string>)

  /** One project after its request: the statistics on an ok response, otherwise as it was. */
  function Fetched(project: Project, respond: string -> RepoResponse): (p: Project)
    ensures p.(githubData := project.githubData) == project
    ensures respond(RepoPath(project.repo)).Ok? ==>
      (p.githubData.Some?
       && p.githubData.value.stars == respond(RepoPath(project.repo)).stars
       && p.githubData.value.forks == respond(RepoPath(project.repo)).forks)
    ensures !respond(RepoPath(project.repo)).Ok? ==> p == project
  {
    match respond(RepoPath(project.repo))
    case Ok(stars, forks, updated, language) =>
      project.(githubData := Some(GithubData(stars, forks, updated, language)))
    case _ => project
  }

  /** Every project after its request, in the same order. */
  function AllFetched(projects: seq<Project>, respond: string -> RepoResponse): (r: seq<Project>)
    ensures |r| == |projects|
    ensures forall i :: 0 <= i < |r| ==> r[i] == Fetched(projects[i], respond)
  {
    seq(|projects|, i requires 0 <= i < |projects| => Fetched(projects[i], respond))
  }

  /**
   * Fetching keeps the list's length, its order and everything but the statistics; a project
   * whose request fails or is not ok keeps the statistics it had, so a featured project keeps none.
   */
  lemma FetchKeepsProjects(projects: seq<Project>, respond: string -> RepoResponse, i: nat)
    requires i < |projects|
    ensures var r := AllFetched(projects, respond);
      r[i].name == projects[i].name && r[i].repo == projects[i].repo
      && r[i].technologies == projects[i].technologies
      && (!respond(RepoPath(projects[i].repo)).Ok? ==> r[i].githubData == projects[i].githubData)
  {
    var r := AllFetched(projects, respond);
    assert r[i].(githubData := projects[i].githubData) == projects[i];
  }

  /** The featured projects carry no statistics until their request succeeds. */
  lemma FailedFetchLeavesNoData(respond: string -> RepoResponse, i: nat)
    requires i < |FeaturedProjects|
    requires !respond(RepoPath(FeaturedProjects[i].repo)).Ok?
    ensures AllFetched(FeaturedProjects, respond)[i].githubData.None?
  {
    assert FeaturedProjects[i].githubData.None?;
  }

  // ---------------------------------------------------------------------------
  // Component state

  class Terminal {
    var projects: seq<Project>
    var selectedIndex: nat
    var showProjectDetails: bool
    var loading: bool
    /** Clone timers started and not yet fired. */
    var pendingClones: nat

    /** The selection is a project of the list, and loading means a clone timer is running. */
    predicate Valid()
      reads this
    {
      (selectedIndex < |projects| || (projects == [] && selectedIndex == 0))
      && (loading ==> pendingClones > 0)
    }

    constructor()
      ensures projects == FeaturedProjects
      ensures selectedIndex == 0 && !showProjectDetails && !loading && pendingClones == 0
      ensures Valid()
    {
      projects := FeaturedProjects;
      selectedIndex := 0;
      showProjectDetails := false;
      loading := false;
      pendingClones := 0;
    }

    /** `handleSelectProject`: show the clone in progress and start its timer. */
    method HandleSelectProject()
      requires Valid()
      modifies this
      ensures loading && pendingClones == old(pendingClones) + 1
      ensures projects == old(projects) && selectedIndex == old(selectedIndex)
      ensures showProjectDetails == old(showProjectDetails)
      ensures Valid()
    {
      loading := true;
      pendingClones := pendingClones + 1;
    }

    /** The keydown handler: arrows move the selection, Enter selects unless the details are shown. */
    method HandleKey(key: Key)
      requires Valid()
      modifies this
      ensures selectedIndex == StepIndex(old(selectedIndex), |projects|, key)
      ensures projects == old(projects) && showProjectDetails == old(showProjectDetails)
      ensures key.Enter? && !old(showProjectDetails) ==> loading && pendingClones == old(pendingClones) + 1
      ensures !(key.Enter? && !old(showProjectDetails)) ==> loading == old(loading) && pendingClones == old(pendingClones)
      ensures Valid()
    {
      match key
      case ArrowUp =>
        selectedIndex := if selectedIndex > 0 then selectedIndex - 1 else selectedIndex;
      case ArrowDown =>
        selectedIndex := if selectedIndex < |projects| - 1 then selectedIndex + 1 else selectedIndex;
      case Enter =>
        if !showProjectDetails {
          HandleSelectProject();
        }
      case OtherKey =>
    }

    /** A click on a row of the listing (shown only while the details are hidden). */
    method ClickProject(index: nat)
      requires Valid() && index < |projects| && !showProjectDetails
      modifies this
      ensures selectedIndex == index
      ensures loading && pendingClones == old(pendingClones) + 1
      ensures projects == old(projects) && !showProjectDetails
      ensures Valid()
    {
      selectedIndex := index;
      HandleSelectProject();
    }

    /** The clone timer fires: the details are shown and loading ends. */
    method CompleteClone()
      requires Valid() && pendingClones > 0
      modifies this
      ensures showProjectDetails && !loading
      ensures pendingClones == old(pendingClones) - 1
      ensures projects == old(projects) && selectedIndex == old(selectedIndex)
      ensures Valid()
    {
      showProjectDetails := true;
      loading := false;
      pendingClones := pendingClones - 1;
    }

    /** `resetTerminal`: back to the listing, with the same project selected. */
    method ResetTerminal()
      requires Valid()
      modifies this
      ensures !showProjectDetails
      ensures selectedIndex == old(selectedIndex) && projects == old(projects)
      ensures loading == old(loading) && pendingClones == old(pendingClones)
      ensures Valid()
    {
      showProjectDetails := false;
    }

    /** `fetchProjectData`: request each project in turn and store the statistics of the ok ones. */
    method FetchProjectData(respond: string -> RepoResponse)
      requires Valid()
      modifies this
      ensures projects == AllFetched(old(projects), respond)
      ensures selectedIndex == old(selectedIndex) && showProjectDetails == old(showProjectDetails)
      ensures loading == old(loading) && pendingClones == old(pendingClones)
      ensures Valid()
    {
      var updated := projects;
      var i := 0;
      while i < |updated|
        invariant 0 <= i <= |updated| == |projects|
        invariant forall j :: 0 <= j < i ==> updated[j] == Fetched(projects[j], respond)
        invariant forall j :: i <= j < |updated| ==> updated[j] == projects[j]
      {
        var response := respond(RepoPath(updated[i].repo));
        if response.Ok? {
          var data := GithubData(response.stars, response.forks, response.updated, response.language);
          updated := updated[i := updated[i].(githubData := Some(data))];
        }
        i := i + 1;
      }
      projects := updated;
    }
  }
}
