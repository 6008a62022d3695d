/**
 * The GitHub statistics of the portfolio's GitHub section: the per-repository fold that
 * builds the language, domain, activity and topic tallies, the two ranked chart series,
 * the featured-repository pick, and the component state that holds them.
 *
 * Network calls are inputs: the repository listing is a `Listing`, and each repository
 * comes paired with the outcome of fetching and parsing its languages endpoint.
 */
module GitHubSection {
  import opened Wrappers
  import opened Entries
  import opened Seqs

  // ---------------------------------------------------------------------------
  // Domain classification

  datatype Domain = Backend | Frontend | Infrastructure

  const FrontendTechs: seq<string> := ["JavaScript", "TypeScript", "React", "Vue", "CSS", "HTML"]
  const InfrastructureTechs: seq<string> := ["Docker", "Shell", "HCL", "Terraform"]

  /** Exact membership, frontend list first, then infrastructure, otherwise backend. */
  function CategorizeTech(language: string): (d: Domain)
    ensures d == Frontend <==> language in FrontendTechs
    ensures d == Infrastructure <==> language !in FrontendTechs && language in InfrastructureTechs
    ensures d == Backend <==> language !in FrontendTechs && language !in InfrastructureTechs
  {
    if language in FrontendTechs then Frontend
    else if language in InfrastructureTechs then Infrastructure
    else Backend
  }

  /** Matching is exact: "Dockerfile" is not "Docker", and "Docker" is not frontend. */
  lemma DockerfileIsBackend()
    ensures CategorizeTech("Dockerfile") == Backend
    ensures CategorizeTech("Docker") == Infrastructure
    ensures CategorizeTech("TypeScript") == Frontend
  {
  }

  datatype DomainFocus = DomainFocus(backend: nat, frontend: nat, infrastructure: nat) {
    /** `domainFocus[d] += n` */
    function Add(d: Domain, n: nat): (r: DomainFocus)
      ensures r.Total() == Total() + n
    {
      match d
      case Backend => this.(backend := backend + n)
      case Frontend => this.(frontend := frontend + n)
      case Infrastructure => this.(infrastructure := infrastructure + n)
    }

    function Total(): nat {
      backend + frontend + infrastructure
    }
  }

  // ---------------------------------------------------------------------------
  // Inputs

  datatype Repository = Repository(
    name: string,
    language: string,
    topics: seq<string>,   // an absent `topics` behaves as []
    visibility: string,
    languagesUrl: string,
    pushedAt: string)

  /** `githubFetch(repo.languages_url)` then `.json()`: a thrown error, or the language -> bytes object. */
  datatype LanguagesFetch = LanguagesFailed | Languages(bytes: Entries<nat>)

  datatype RepoFetch = RepoFetch(repo: Repository, languages: LanguagesFetch)

  /** The listing request: a thrown error (non-ok status, network, non-array body) or the repositories. */
  datatype Listing = ListingFailed | Listed(repos: seq<RepoFetch>)

  // ---------------------------------------------------------------------------
  // The statistics fold

  /** The byte-valued locals of the loop, which always move together. */
  datatype ByteTotals = ByteTotals(languages: Entries<nat>, totalBytes: nat, domainFocus: DomainFocus)

  /** The loop's mutable locals. */
  datatype Tally = Tally(
    bytes: ByteTotals,
    topics: Entries<nat>,
    languagesByRepo: Entries<Entries<nat>>,
    activityByMonth: Entries<nat>)

  datatype Stats = Stats(
    languages: Entries<nat>,
    topTopics: Entries<nat>,
    languagesByRepo: Entries<Entries<nat>>,
    totalBytes: nat,
    activityByMonth: Entries<nat>,
    domainFocus: DomainFocus)

  const NoBytes := ByteTotals([], 0, DomainFocus(0, 0, 0))
  const EmptyTally := Tally(NoBytes, [], [], [])
  const InitialStats := Stats([], [], [], 0, [], DomainFocus(0, 0, 0))

  /** One `[lang, bytes]` entry of a repository's languages. */
  function AddLanguage(b: ByteTotals, lang: string, bytes: nat): ByteTotals {
    ByteTotals(Increase(b.languages, lang, bytes), b.totalBytes + bytes, b.domainFocus.Add(CategorizeTech(lang), bytes))
  }

  function AddLanguages(b: ByteTotals, data: Entries<nat>): ByteTotals {
    if data == [] then b
    else AddLanguage(AddLanguages(b, data[..|data| - 1]), data[|data| - 1].0, data[|data| - 1].1)
  }

  /** One pass of the loop body; a failed languages fetch leaves every tally as it was. */
  function AddRepo(t: Tally, rf: RepoFetch, monthKey: string -> string): Tally {
    match rf.languages
    case LanguagesFailed => t
    case Languages(data) =>
      Tally(AddLanguages(t.bytes, data),
            CountEach(t.topics, rf.repo.topics),
            Put(t.languagesByRepo, rf.repo.name, data),
            Increase(t.activityByMonth, monthKey(rf.repo.pushedAt), 1))
  }

  /** The tallies after the loop has run over `repos`. */
  function Aggregate(repos: seq<RepoFetch>, monthKey: string -> string): Tally {
    if repos == [] then EmptyTally
    else AddRepo(Aggregate(repos[..|repos| - 1], monthKey), repos[|repos| - 1], monthKey)
  }

  function TopicCount(e: (string, nat)): nat { e.1 }

  /** Topics ranked by count, highest first, keeping ten. */
  function TopTopics(topics: Entries<nat>): Entries<nat> {
    TopN(topics, TopicCount, 10)
  }

  function Finish(t: Tally): Stats {
    Stats(t.bytes.languages, TopTopics(t.topics), t.languagesByRepo, t.bytes.totalBytes, t.activityByMonth, t.bytes.domainFocus)
  }

  /** The statistics loop of `fetchGithubData`, followed by the top-topics ranking. */
  method CollectStats(allRepos: seq<RepoFetch>, monthKey: string -> string) returns (stats: Stats)
    ensures stats == Finish(Aggregate(allRepos, monthKey))
  {
    var languages: Entries<nat> := [];
    var topics: Entries<nat> := [];
    var languagesByRepo: Entries<Entries<nat>> := [];
    var activityByMonth: Entries<nat> := [];
    var totalBytes: nat := 0;
    var domainFocus := DomainFocus(0, 0, 0);
    for i := 0 to |allRepos|
      invariant Tally(ByteTotals(languages, totalBytes, domainFocus), topics, languagesByRepo, activityByMonth)
             == Aggregate(allRepos[..i], monthKey)
    {
      var rf := allRepos[i];
      assert allRepos[..i + 1][..i] == allRepos[..i];
      if rf.languages.Languages? {
        var langData := rf.languages.bytes;
        languagesByRepo := Put(languagesByRepo, rf.repo.name, langData);
        ghost var before := ByteTotals(languages, totalBytes, domainFocus);
        for j := 0 to |langData|
          invariant ByteTotals(languages, totalBytes, domainFocus) == AddLanguages(before, langData[..j])
        {
          var (lang, byteCount) := langData[j];
          languages := Increase(languages, lang, byteCount);
          totalBytes := totalBytes + byteCount;
          domainFocus := domainFocus.Add(CategorizeTech(lang), byteCount);
          assert langData[..j + 1][..j] == langData[..j];
        }
        assert langData[..|langData|] == langData;
        activityByMonth := Increase(activityByMonth, monthKey(rf.repo.pushedAt), 1);
        ghost var topicsBefore := topics;
        var repoTopics := rf.repo.topics;
        for k := 0 to |repoTopics|
          invariant topics == CountEach(topicsBefore, repoTopics[..k])
        {
          topics := Increase(topics, repoTopics[k], 1);
          assert repoTopics[..k + 1][..k] == repoTopics[..k];
        }
        assert repoTopics[..|repoTopics|] == repoTopics;
      }
    }
    assert allRepos[..|allRepos|] == allRepos;
    stats := Stats(languages, TopTopics(topics), languagesByRepo, totalBytes, activityByMonth, domainFocus);
  }

  // ---------------------------------------------------------------------------
  // What the fold guarantees

  /** The conservation invariant: the three totals agree. */
  predicate Balanced(b: ByteTotals) {
    b.totalBytes == Sum(b.languages) && b.totalBytes == b.domainFocus.Total()
  }

  lemma {:induction false} AddLanguagesBalanced(b: ByteTotals, data: Entries<nat>)
    requires Balanced(b)
    ensures Balanced(AddLanguages(b, data))
  {
    if data != [] {
      var n := |data| - 1;
      AddLanguagesBalanced(b, data[..n]);
      SumIncrease(AddLanguages(b, data[..n]).languages, data[n].0, data[n].1);
    }
  }

  lemma {:induction false} AggregateBalanced(repos: seq<RepoFetch>, monthKey: string -> string)
    ensures Balanced(Aggregate(repos, monthKey).bytes)
  {
    if repos != [] {
      var n := |repos| - 1;
      AggregateBalanced(repos[..n], monthKey);
      if repos[n].languages.Languages? {
        AddLanguagesBalanced(Aggregate(repos[..n], monthKey).bytes, repos[n].languages.bytes);
      }
    }
  }

  /** After the fold, `totalBytes` is the sum of `languages` and of the three `domainFocus` buckets. */
  lemma StatsConserveBytes(repos: seq<RepoFetch>, monthKey: string -> string)
    ensures var s := Finish(Aggregate(repos, monthKey));
      s.totalBytes == Sum(s.languages) && s.totalBytes == s.domainFocus.backend + s.domainFocus.frontend + s.domainFocus.infrastructure
  {
    AggregateBalanced(repos, monthKey);
  }

  predicate FetchSucceeded(rf: RepoFetch) {
    rf.languages.Languages?
  }

  /** The repositories whose languages fetch succeeded, in order. */
  function Succeeded(repos: seq<RepoFetch>): seq<RepoFetch> {
    Filter(repos, FetchSucceeded)
  }

  lemma {:induction false} AggregateSnoc(s: seq<RepoFetch>, x: RepoFetch, monthKey: string -> string)
    ensures Aggregate(s + [x], monthKey) == AddRepo(Aggregate(s, monthKey), x, monthKey)
  {
    assert (s + [x])[..|s|] == s;
  }

  /** Partial-failure tolerance: the statistics are those of the successful repositories alone. */
  lemma {:induction false} FailedReposContributeNothing(repos: seq<RepoFetch>, monthKey: string -> string)
    ensures Aggregate(Succeeded(repos), monthKey) == Aggregate(repos, monthKey)
  {
    if repos != [] {
      var n := |repos| - 1;
      FailedReposContributeNothing(repos[..n], monthKey);
      if repos[n].languages.Languages? {
        AggregateSnoc(Succeeded(repos[..n]), repos[n], monthKey);
      } else {
        assert Succeeded(repos) == Succeeded(repos[..n]);
      }
    }
  }

  /** Dropping a failed repository leaves the successful ones as they were. */
  lemma SucceededWithoutFailed(before: seq<RepoFetch>, failed: RepoFetch, after: seq<RepoFetch>)
    requires failed.languages.LanguagesFailed?
    ensures Succeeded(before + [failed] + after) == Succeeded(before + after)
  {
    var p := FetchSucceeded;
    calc {
      Filter(before + [failed] + after, p);
    == { FilterConcat(before + [failed], after, p); }
      Filter(before + [failed], p) + Filter(after, p);
    == { FilterConcat(before, [failed], p); FilterSingleton(failed, p); }
      Filter(before, p) + Filter(after, p);
    == { FilterConcat(before, after, p); }
      Filter(before + after, p);
    }
  }

  /** A failing repository anywhere in the list changes nothing for the others. */
  lemma FailedRepoIsSkipped(before: seq<RepoFetch>, failed: RepoFetch, after: seq<RepoFetch>, monthKey: string -> string)
    requires failed.languages.LanguagesFailed?
    ensures Aggregate(before + [failed] + after, monthKey) == Aggregate(before + after, monthKey)
  {
    SucceededWithoutFailed(before, failed, after);
    FailedReposContributeNothing(before + [failed] + after, monthKey);
    FailedReposContributeNothing(before + after, monthKey);
  }

  /** Every successful repository adds one to exactly one month. */
  lemma {:induction false} ActivityCountsSucceededRepos(repos: seq<RepoFetch>, monthKey: string -> string)
    ensures Sum(Aggregate(repos, monthKey).activityByMonth) == |Succeeded(repos)|
  {
    if repos != [] {
      var n := |repos| - 1;
      ActivityCountsSucceededRepos(repos[..n], monthKey);
      if repos[n].languages.Languages? {
        SumIncrease(Aggregate(repos[..n], monthKey).activityByMonth, monthKey(repos[n].repo.pushedAt), 1);
      }
    }
  }

  /** The bytes of every successful fetch, duplicates of a repository name included. */
  function FetchedBytes(repos: seq<RepoFetch>): nat {
    if repos == [] then 0
    else
      var n := |repos| - 1;
      FetchedBytes(repos[..n]) + (match repos[n].languages case Languages(d) => Sum(d) case LanguagesFailed => 0)
  }

  lemma {:induction false} AddLanguagesTotal(b: ByteTotals, data: Entries<nat>)
    ensures AddLanguages(b, data).totalBytes == b.totalBytes + Sum(data)
  {
    if data != [] {
      var n := |data| - 1;
      var prefix := data[..n];
      AddLanguagesTotal(b, prefix);
      var before := AddLanguages(b, prefix);
      assert AddLanguages(b, data).totalBytes == before.totalBytes + data[n].1;
      SumAppend(prefix, data[n]);
      assert prefix + [data[n]] == data;
    }
  }

  /**
   * `totalBytes` adds up every successful fetch, even when two repositories share a name
   * and the second replaces the first in `languagesByRepo`.
   */
  lemma {:induction false} TotalIsFetchedBytes(repos: seq<RepoFetch>, monthKey: string -> string)
    ensures Aggregate(repos, monthKey).bytes.totalBytes == FetchedBytes(repos)
  {
    if repos != [] {
      var n := |repos| - 1;
      TotalIsFetchedBytes(repos[..n], monthKey);
      if repos[n].languages.Languages? {
        AddLanguagesTotal(Aggregate(repos[..n], monthKey).bytes, repos[n].languages.bytes);
      }
    }
  }

  /** The languages of the last successful repository called `name`, if any. */
  function LastFetchNamed(repos: seq<RepoFetch>, name: string): (r: Option<Entries<nat>>)
    ensures r.Some? <==> exists x :: x in repos && x.languages.Languages? && x.repo.name == name
  {
    if repos == [] then None
    else
      var n := |repos| - 1;
      assert repos == repos[..n] + [repos[n]];
      if repos[n].languages.Languages? && repos[n].repo.name == name then Some(repos[n].languages.bytes)
      else LastFetchNamed(repos[..n], name)
  }

  /**
   * `languagesByRepo` has an entry exactly for the names of successful repositories, and the
   * entry is the languages of the last such repository (a later duplicate overwrites).
   */
  lemma {:induction false} LanguagesByRepoIsLastFetch(repos: seq<RepoFetch>, monthKey: string -> string, name: string)
    ensures Lookup(Aggregate(repos, monthKey).languagesByRepo, name) == LastFetchNamed(repos, name)
  {
    if repos != [] {
      var n := |repos| - 1;
      LanguagesByRepoIsLastFetch(repos[..n], monthKey, name);
      if repos[n].languages.Languages? {
        LookupPut(Aggregate(repos[..n], monthKey).languagesByRepo, repos[n].repo.name, repos[n].languages.bytes, name);
      }
    }
  }

  /** How many times `topic` is listed by the successful repositories. */
  function TopicUses(repos: seq<RepoFetch>, topic: string): nat {
    if repos == [] then 0
    else
      var n := |repos| - 1;
      TopicUses(repos[..n], topic) + (if repos[n].languages.Languages? then multiset(repos[n].repo.topics)[topic] else 0)
  }

  /** Before truncation, each topic is counted once per successful repository listing it. */
  lemma {:induction false} TopicTally(repos: seq<RepoFetch>, monthKey: string -> string, topic: string)
    ensures Count(Aggregate(repos, monthKey).topics, topic) == TopicUses(repos, topic)
  {
    if repos != [] {
      var n := |repos| - 1;
      TopicTally(repos[..n], monthKey, topic);
      if repos[n].languages.Languages? {
        CountEachCounts(Aggregate(repos[..n], monthKey).topics, repos[n].repo.topics, topic);
      }
    }
  }

  /**
   * `topTopics` keeps at most 10 entries of the topic tally, in non-increasing count order; no
   * topic left out has a higher count than one kept, and equal counts keep first-seen order.
   */
  lemma TopTopicsCorrect(topics: Entries<nat>)
    ensures |TopTopics(topics)| == if |topics| <= 10 then |topics| else 10
    ensures multiset(TopTopics(topics)) <= multiset(topics)
    ensures forall i, j :: 0 <= i < j < |TopTopics(topics)| ==> TopTopics(topics)[i].1 >= TopTopics(topics)[j].1
    ensures forall e :: e in topics && e !in TopTopics(topics) ==>
              forall f :: f in TopTopics(topics) ==> e.1 <= f.1
    ensures forall c :: WithKey(TopTopics(topics), TopicCount, c) <= WithKey(topics, TopicCount, c)
  {
    TopNCorrect(topics, TopicCount, 10);
  }

  // ---------------------------------------------------------------------------
  // Language distribution chart

  /** `(bytes / totalBytes) * 100` as a JavaScript number: `0 / 0` is NaN, `n / 0` is Infinity. */
  datatype Percentage = Ratio(value: real) | NaN | Infinity

  function PercentageOf(bytes: nat, total: nat): (p: Percentage)
    ensures total > 0 ==> p.Ratio? && p.value * (total as real) == (bytes as real) * 100.0
    ensures total == 0 ==> (p == NaN <==> bytes == 0) && (p == Infinity <==> bytes > 0)
  {
    if total == 0 then (if bytes == 0 then NaN else Infinity)
    else Ratio(bytes as real / total as real * 100.0)
  }

  /** With a positive total, percentages are ordered exactly as the byte counts are. */
  lemma PercentageMonotone(a: nat, b: nat, total: nat)
    requires total > 0
    ensures a <= b <==> PercentageOf(a, total).value <= PercentageOf(b, total).value
  {
    var t := total as real;
    assert PercentageOf(a, total).value == (a as real) * (100.0 / t);
    assert PercentageOf(b, total).value == (b as real) * (100.0 / t);
    assert 100.0 / t > 0.0;
  }

  datatype LanguageData = LanguageData(name: string, percentage: Percentage, bytes: nat)

  function LanguageEntries(languages: Entries<nat>, total: nat): (r: seq<LanguageData>)
    ensures |r| == |languages|
    ensures forall i :: 0 <= i < |r| ==> r[i] == LanguageData(languages[i].0, PercentageOf(languages[i].1, total), languages[i].1)
  {
    seq(|languages|, i requires 0 <= i < |languages| => LanguageData(languages[i].0, PercentageOf(languages[i].1, total), languages[i].1))
  }

  function LanguageBytes(d: LanguageData): nat { d.bytes }

  /**
   * The top eight languages for the pie chart. The comparison is made on bytes: with a positive
   * total it orders exactly as the percentages do, and with a zero total every comparison is
   * NaN, which leaves the order alone just as equal byte counts do.
   */
  function PrepareLanguageData(stats: Stats): seq<LanguageData> {
    TopN(LanguageEntries(stats.languages, stats.totalBytes), LanguageBytes, 8)
  }

  /**
   * The chart holds `min(8, |languages|)` entries, each one language with its percentage and
   * bytes, and no language left out has more bytes than one shown.
   */
  lemma LanguageDataCorrect(stats: Stats)
    ensures var r := PrepareLanguageData(stats);
      |r| == (if |stats.languages| <= 8 then |stats.languages| else 8)
    ensures var all := LanguageEntries(stats.languages, stats.totalBytes);
      multiset(PrepareLanguageData(stats)) <= multiset(all)
    ensures var all := LanguageEntries(stats.languages, stats.totalBytes);
      forall d :: d in all && d !in PrepareLanguageData(stats) ==>
        forall e :: e in PrepareLanguageData(stats) ==> d.bytes <= e.bytes
  {
    TopNCorrect(LanguageEntries(stats.languages, stats.totalBytes), LanguageBytes, 8);
  }

  /** With a positive total, the chart is ordered by non-increasing percentage. */
  lemma LanguageDataByPercentage(stats: Stats)
    requires stats.totalBytes > 0
    ensures var r := PrepareLanguageData(stats);
      forall i, j :: 0 <= i < j < |r| ==>
        r[i].percentage.Ratio? && r[j].percentage.Ratio? && r[i].percentage.value >= r[j].percentage.value
  {
    var all := LanguageEntries(stats.languages, stats.totalBytes);
    var r := PrepareLanguageData(stats);
    TopNCorrect(all, LanguageBytes, 8);
    forall i, j | 0 <= i < j < |r|
      ensures r[i].percentage.Ratio? && r[j].percentage.Ratio? && r[i].percentage.value >= r[j].percentage.value
    {
      assert r[i] in multiset(all) && r[j] in multiset(all);
      var a :| 0 <= a < |all| && all[a] == r[i];
      var b :| 0 <= b < |all| && all[b] == r[j];
      PercentageMonotone(r[j].bytes, r[i].bytes, stats.totalBytes);
    }
  }

  /**
   * With nothing counted (every language at zero bytes), each comparison is NaN and the chart
   * is the first eight languages in insertion order.
   */
  lemma LanguageDataZeroTotal(stats: Stats)
    requires stats.totalBytes == Sum(stats.languages) == 0
    ensures PrepareLanguageData(stats) == Take(LanguageEntries(stats.languages, 0), 8)
  {
    var all := LanguageEntries(stats.languages, 0);
    SumZero(stats.languages);
    assert forall d :: d in all ==> LanguageBytes(d) == 0 by {
      forall d | d in all ensures LanguageBytes(d) == 0 {
        var i :| 0 <= i < |all| && all[i] == d;
        assert stats.languages[i] in stats.languages;
      }
    }
    SortDescCorrect(all, LanguageBytes);
    var sorted := SortDesc(all, LanguageBytes);
    assert forall d :: d in sorted ==> LanguageBytes(d) == 0 by {
      forall d | d in sorted ensures LanguageBytes(d) == 0 {
        assert d in multiset(sorted);
      }
    }
    WithKeyAll(all, LanguageBytes, 0);
    WithKeyAll(sorted, LanguageBytes, 0);
  }

  // ---------------------------------------------------------------------------
  // Projects-per-language chart

  const Colors: seq<string> := ["#bb86fc", "#03dac6", "#cf6679", "#018786", "#8bc34a", "#ff9800", "#e91e63", "#607d8b"]

  datatype ProjectCountData = ProjectCountData(name: string, value: nat, color: string)

  /** The number of repositories each language appears in, in first-seen order. */
  function LangCount(languagesByRepo: Entries<Entries<nat>>): Entries<nat> {
    if languagesByRepo == [] then []
    else
      var n := |languagesByRepo| - 1;
      CountEach(LangCount(languagesByRepo[..n]), Keys(languagesByRepo[n].1))
  }

  /** How many of the repositories list `lang` among their languages. */
  function ReposUsing(languagesByRepo: Entries<Entries<nat>>, lang: string): (r: nat)
    ensures r <= |languagesByRepo|
  {
    if languagesByRepo == [] then 0
    else
      var n := |languagesByRepo| - 1;
      ReposUsing(languagesByRepo[..n], lang) + (if lang in Keys(languagesByRepo[n].1) then 1 else 0)
  }

  /** A language's bar counts the repositories that use it, since no object repeats a key. */
  lemma {:induction false} LangCountIsReposUsing(languagesByRepo: Entries<Entries<nat>>, lang: string)
    requires forall e :: e in languagesByRepo ==> DistinctKeys(e.1)
    ensures Count(LangCount(languagesByRepo), lang) == ReposUsing(languagesByRepo, lang)
  {
    if languagesByRepo != [] {
      var n := |languagesByRepo| - 1;
      var prefix := languagesByRepo[..n];
      assert forall e :: e in prefix ==> e in languagesByRepo;
      LangCountIsReposUsing(prefix, lang);
      CountEachCounts(LangCount(prefix), Keys(languagesByRepo[n].1), lang);
      DistinctKeysOccurOnce(languagesByRepo[n].1, lang);
    }
  }

  /** Each language with its count and the colour of its position before sorting. */
  function Colored(counts: Entries<nat>): (r: seq<ProjectCountData>)
    ensures |r| == |counts|
    ensures forall i :: 0 <= i < |r| ==> r[i] == ProjectCountData(counts[i].0, counts[i].1, Colors[i % |Colors|])
  {
    seq(|counts|, i requires 0 <= i < |counts| => ProjectCountData(counts[i].0, counts[i].1, Colors[i % |Colors|]))
  }

  function ProjectValue(p: ProjectCountData): nat { p.value }

  /** Colour by position, then sort by count and keep eight. */
  function RankProjectCounts(counts: Entries<nat>): seq<ProjectCountData> {
    TopN(Colored(counts), ProjectValue, 8)
  }

  /** The counting loops of `prepareProjectCountData`, then colouring and ranking. */
  method PrepareProjectCountData(languagesByRepo: Entries<Entries<nat>>) returns (r: seq<ProjectCountData>)
    ensures r == RankProjectCounts(LangCount(languagesByRepo))
  {
    var langCount: Entries<nat> := [];
    for i := 0 to |languagesByRepo|
      invariant langCount == LangCount(languagesByRepo[..i])
    {
      var repoLangs := Keys(languagesByRepo[i].1);
      ghost var before := langCount;
      for j := 0 to |repoLangs|
        invariant langCount == CountEach(before, repoLangs[..j])
      {
        langCount := Increase(langCount, repoLangs[j], 1);
        assert repoLangs[..j + 1][..j] == repoLangs[..j];
      }
      assert repoLangs[..|repoLangs|] == repoLangs;
      assert languagesByRepo[..i + 1][..i] == languagesByRepo[..i];
    }
    assert languagesByRepo[..|languagesByRepo|] == languagesByRepo;
    r := RankProjectCounts(langCount);
  }

  /**
   * The chart holds `min(8, |counts|)` bars in non-increasing count order, each bar a language
   * with its count and the colour of its position before sorting, and no language left out
   * has a higher count than one shown.
   */
  lemma ProjectCountDataCorrect(counts: Entries<nat>)
    ensures |RankProjectCounts(counts)| == if |counts| <= 8 then |counts| else 8
    ensures forall p :: p in RankProjectCounts(counts) ==>
      exists j :: 0 <= j < |counts| && p == ProjectCountData(counts[j].0, counts[j].1, Colors[j % 8])
    ensures SortedDesc(RankProjectCounts(counts), ProjectValue)
    ensures forall p :: p in Colored(counts) && p !in RankProjectCounts(counts) ==>
      forall q :: q in RankProjectCounts(counts) ==> p.value <= q.value
  {
    var all := Colored(counts);
    TopNCorrect(all, ProjectValue, 8);
    forall p | p in RankProjectCounts(counts)
      ensures exists j :: 0 <= j < |counts| && p == ProjectCountData(counts[j].0, counts[j].1, Colors[j % 8])
    {
      assert p in multiset(all);
      var j :| 0 <= j < |all| && all[j] == p;
    }
  }

  /** Colours follow the pre-sort position, so the first and ninth languages share a colour. */
  lemma ColorsRepeatAfterEight(counts: Entries<nat>)
    requires |counts| > 8
    ensures Colored(counts)[0].color == Colored(counts)[8].color
  {
  }

  // ---------------------------------------------------------------------------
  // Featured repositories

  function ReposOf(fetches: seq<RepoFetch>): (r: seq<Repository>)
    ensures |r| == |fetches|
    ensures forall i :: 0 <= i < |r| ==> r[i] == fetches[i].repo
  {
    seq(|fetches|, i requires 0 <= i < |fetches| => fetches[i].repo)
  }

  predicate IsPublic(repo: Repository) {
    repo.visibility == "public"
  }

  /** `repos.filter(repo => repo.visibility === 'public')` */
  function PublicOnly(repos: seq<Repository>): (r: seq<Repository>)
    ensures forall x :: x in r <==> x in repos && x.visibility == "public"
    ensures multiset(r) <= multiset(repos)
  {
    Partition(repos, IsPublic);
    Filter(repos, IsPublic)
  }

  /** `.slice(0, 4)` of the shuffled public repositories. */
  function Featured(shuffled: seq<Repository>): seq<Repository> {
    Take(shuffled, 4)
  }

  /**
   * Whatever order the shuffle produced, the featured list holds `min(4, #public)` repositories,
   * all public, none repeated more often than in the listing.
   */
  lemma FeaturedCorrect(all: seq<Repository>, shuffled: seq<Repository>)
    requires multiset(shuffled) == multiset(PublicOnly(all))
    ensures |Featured(shuffled)| == if |PublicOnly(all)| <= 4 then |PublicOnly(all)| else 4
    ensures multiset(Featured(shuffled)) <= multiset(PublicOnly(all))
    ensures forall x :: x in Featured(shuffled) ==> x in all && x.visibility == "public"
  {
    assert |shuffled| == |multiset(shuffled)| == |PublicOnly(all)|;
    if |shuffled| > 4 {
      assert shuffled == shuffled[..4] + shuffled[4..];
      assert multiset(shuffled) == multiset(shuffled[..4]) + multiset(shuffled[4..]);
    }
    forall x | x in Featured(shuffled) ensures x in all && x.visibility == "public" {
      assert x in multiset(Featured(shuffled));
    }
  }

  // ---------------------------------------------------------------------------
  // Component state

  /** The `stats`, `publicRepos` and `loading` state of the GitHub section. */
  class SectionState {
    var stats: Stats
    var publicRepos: seq<Repository>
    var loading: bool

    /** The conservation invariant of the held statistics. */
    predicate Valid()
      reads this
    {
      stats.totalBytes == Sum(stats.languages) && stats.totalBytes == stats.domainFocus.Total()
    }

    constructor()
      ensures stats == InitialStats && publicRepos == [] && loading
      ensures Valid()
    {
      stats := InitialStats;
      publicRepos := [];
      loading := true;
    }

    /**
     * `fetchGithubData`: on a failed listing only `loading` changes; otherwise the featured
     * repositories are the first four of the shuffled public ones and the statistics are
     * the fold over every repository.
     */
    method FetchGithubData(listing: Listing, shuffled: seq<Repository>, monthKey: string -> string)
      requires Valid()
      requires listing.Listed? ==> multiset(shuffled) == multiset(PublicOnly(ReposOf(listing.repos)))
      modifies this
      ensures Valid() && !loading
      ensures listing.ListingFailed? ==> stats == old(stats) && publicRepos == old(publicRepos)
      ensures listing.Listed? ==>
        publicRepos == Featured(shuffled) && stats == Finish(Aggregate(listing.repos, monthKey))
    {
      if listing.Listed? {
        publicRepos := Take(shuffled, 4);
        stats := CollectStats(listing.repos, monthKey);
        StatsConserveBytes(listing.repos, monthKey);
      }
      loading := false;
    }
  }
}
