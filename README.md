# Terminal portfolio: a verified model of its logic

The portfolio is a single-page React application. It shows a résumé and decorates it with live
data from the GitHub API. This project models the parts of it that compute something, and proves
what they promise:

- **GitHub statistics** (`GitHubSection`). The loop sums every repository's language bytes into
  `languages`, `totalBytes` and the three `domainFocus` buckets. It also records `languagesByRepo`,
  counts pushes per month and counts topics. Then come the top-ten topics, the language chart
  (top eight by percentage) and the project-count chart (top eight by repository count, each
  colour fixed before sorting). It also covers the four featured public repositories and what a
  failed listing leaves behind.
- **Repository search by technology** (`GitHubApi`). The `techMappings` table, the three-stage
  matching predicate of `fetchReposByTech`, its failure paths, and the status check of
  `githubFetch`.
- **Technology badge** (`TechBadge`). The fixed `techMap`, and the badge generated for any other
  name: the 32-bit string hash, its hue/saturation/lightness ranges, the abbreviation and the
  category. Also the black-or-white label colour read from a `#rrggbb` background.
- **Skill modal** (`SkillDetailModal`). Related experiences with at most two key points each. The
  public/private split of the found repositories, the pluralised private-projects note, and what
  the modal renders.
- **Skill data and skills section** (`PortfolioData`, `SkillsSection`). `getSkillDetails` over
  `skillDetailsMap` and its agreement with `skillCategories`. The level labels, the dialog
  state, and the public-project grid with its private note.
- **Terminal showcase** (`TerminalInnovations`). Arrow and Enter keys over `selectedIndex`, the
  clone/loading steps, `resetTerminal`, repository-path stripping and the per-project
  statistics fetch.
- **Experience toggles** (`Experience`), **icons** (`TechIcon`) and the **colour mode**
  (`ColorMode`).

Helper modules:

- `Wrappers`: `Option`, `Result`.
- `Text`: the JavaScript string operations the code relies on, such as `includes`, ASCII
  `toLowerCase`/`toUpperCase`, string-pattern `replace`, `substring`, `parseInt(_, 16)` and the
  `\s` class.
- `Seqs`: `filter`, with order and partition lemmas.
- `Entries`: a plain JavaScript object as its insertion-ordered entries, with the stable
  descending `sort` followed by `slice(0, n)`.

Modelling choices:

- **Network answers are inputs.** A request's outcome (thrown, not ok, or a body) is a
  parameter or a datatype value.
- **Other nondeterminism is an input too.** The random shuffle is a sequence required to be a
  permutation of the public repositories. The month key built from a `Date` is an opaque
  function.
- **The 1.5 s clone timer** becomes a separate `CompleteClone` step.
- **Component state with setters** becomes a class whose methods state the whole new state.

Two points about the code itself:

- There is no guard for a zero `totalBytes`. The percentage is therefore NaN when a language has
  no bytes and Infinity otherwise, as in JavaScript, and the model yields the same.
- Printing is a plain `window.print()`. Nothing paginates, so there is nothing of that kind to
  model.

## Model

| member | source | states |
|---|---|---|
| GitHubSection.CategorizeTech | src/components/GitHubSection.tsx:66-72 | frontend iff the language is in the frontend list; infrastructure iff not frontend and in the infrastructure list; backend otherwise |
| GitHubSection.DockerfileIsBackend | src/components/GitHubSection.tsx:67-71 | matching is exact: "Dockerfile" is backend while "Docker" is infrastructure and "TypeScript" frontend |
| GitHubSection.DomainFocus.Add | src/components/GitHubSection.tsx:110 | adding bytes to one bucket raises the bucket total by exactly those bytes |
| GitHubSection.CollectStats | src/components/GitHubSection.tsx:91-138 | the imperative loop over all repositories computes the statistics given by the fold `Aggregate` followed by the top-topics ranking |
| GitHubSection.AddLanguagesBalanced | src/components/GitHubSection.tsx:106-111 | one repository's language entries keep `totalBytes` equal to the sum of `languages` and to the sum of the three buckets |
| GitHubSection.AggregateBalanced | src/components/GitHubSection.tsx:99-125 | the byte conservation holds after the loop over any list of repositories |
| GitHubSection.StatsConserveBytes | src/components/GitHubSection.tsx:105-111 | in the final statistics `totalBytes` is the sum of `languages` and of `domainFocus` |
| GitHubSection.AggregateSnoc | src/components/GitHubSection.tsx:99-125 | the loop over a list extended by one repository is one more loop body |
| GitHubSection.FailedReposContributeNothing | src/components/GitHubSection.tsx:99-124 | repositories whose language fetch throws can be dropped without changing any tally |
| GitHubSection.SucceededWithoutFailed | src/components/GitHubSection.tsx:122-124 | the successful fetches of a list are the same with or without one failed repository in the middle |
| GitHubSection.FailedRepoIsSkipped | src/components/GitHubSection.tsx:99-124 | a failed repository anywhere in the list leaves bytes, `languagesByRepo`, activity and topics as if it were absent |
| GitHubSection.ActivityCountsSucceededRepos | src/components/GitHubSection.tsx:113-116 | the month counts add up to the number of repositories whose language fetch succeeded |
| GitHubSection.AddLanguagesTotal | src/components/GitHubSection.tsx:106-109 | one repository adds the sum of its language bytes to `totalBytes` |
| GitHubSection.TotalIsFetchedBytes | src/components/GitHubSection.tsx:99-125 | `totalBytes` is the sum of every byte count of every successful language fetch |
| GitHubSection.LastFetchNamed | src/components/GitHubSection.tsx:103 | some reference value exists exactly when a successful fetch carries that repository name |
| GitHubSection.LanguagesByRepoIsLastFetch | src/components/GitHubSection.tsx:103 | `languagesByRepo[name]` is the language object of the last successful fetch with that name, absent if there is none |
| GitHubSection.TopicTally | src/components/GitHubSection.tsx:119-121 | a topic's count is the number of its occurrences in the topic lists of the successful repositories |
| GitHubSection.TopTopicsCorrect | src/components/GitHubSection.tsx:129-133 | at most ten topics, drawn from the counts, in non-increasing order; every topic left out counts no more than any kept; equal counts keep their first-seen order |
| GitHubSection.PercentageOf | src/components/GitHubSection.tsx:154 | with a positive total the percentage is exactly bytes·100/total; with a zero total it is NaN for zero bytes and Infinity otherwise |
| GitHubSection.PercentageMonotone | src/components/GitHubSection.tsx:154-157 | with a positive total, a larger byte count gives a percentage at least as large, and conversely |
| GitHubSection.LanguageEntries | src/components/GitHubSection.tsx:151-156 | one chart entry per language, in order, carrying its name, its percentage and its bytes |
| GitHubSection.LanguageDataCorrect | src/components/GitHubSection.tsx:150-159 | `min(8, #languages)` entries drawn from the language entries; no language left out has more bytes than one shown |
| GitHubSection.LanguageDataByPercentage | src/components/GitHubSection.tsx:157 | with a positive total the chart is in non-increasing order of percentage |
| GitHubSection.LanguageDataZeroTotal | src/components/GitHubSection.tsx:154-158 | with no bytes at all the chart is the first eight languages in insertion order |
| GitHubSection.ReposUsing | src/components/GitHubSection.tsx:163-167 | the number of repositories listing a language is at most the number of repositories |
| GitHubSection.LangCountIsReposUsing | src/components/GitHubSection.tsx:162-167 | `langCount[lang]` is the number of `languagesByRepo` objects that have the language as a key |
| GitHubSection.Colored | src/components/GitHubSection.tsx:169-174 | entry `i` gets name, count and `COLORS[i % 8]` by its position before sorting |
| GitHubSection.PrepareProjectCountData | src/components/GitHubSection.tsx:161-177 | the imperative count loop followed by colouring, sort and slice yields the ranked project counts |
| GitHubSection.ProjectCountDataCorrect | src/components/GitHubSection.tsx:169-176 | at most eight entries, sorted by count descending, each an original entry with its pre-sort colour; none left out counts more than one shown |
| GitHubSection.ColorsRepeatAfterEight | src/components/GitHubSection.tsx:170-173 | the ninth language before sorting gets the first language's colour |
| GitHubSection.ReposOf | src/components/GitHubSection.tsx:81 | the listed repositories in order |
| GitHubSection.PublicOnly | src/components/GitHubSection.tsx:84-85 | exactly the listed repositories with visibility 'public', drawn from the list |
| GitHubSection.FeaturedCorrect | src/components/GitHubSection.tsx:84-87 | at most four featured repositories, as many as there are public ones up to four, all public and all from the fetched list |
| GitHubSection.SectionState.constructor | src/components/GitHubSection.tsx:54-63 | all-empty statistics, no featured repositories, loading |
| GitHubSection.SectionState.FetchGithubData | src/components/GitHubSection.tsx:75-145 | a failed listing keeps the statistics and the featured list and clears loading; a listing sets the first four shuffled public repositories and the folded statistics; byte conservation holds throughout |
| GitHubApi.LanguagesFor | src/utils/github.ts:144 | the mapped language list for a known technology, otherwise the technology itself; never empty |
| GitHubApi.LanguagesForExamples | src/utils/github.ts:93 | "Docker" maps to a list containing "Dockerfile"; unmapped or differently cased names map to themselves |
| GitHubApi.AnyLanguageMatches | src/utils/github.ts:162-165 | true iff some language node is in the list or equals the technology ignoring case |
| GitHubApi.Matches | src/utils/github.ts:148-169 | a repository matches iff its name or description mentions the technology ignoring case, or its primary language is listed, or (only when language nodes are present) some node matches |
| GitHubApi.FetchReposByTech | src/utils/github.ts:130-175 | `[]` on a thrown request, a non-ok response or a body without nodes; otherwise the order-preserving subsequence of the nodes that match |
| GitHubApi.FoundByNameOrPrimaryLanguage | src/utils/github.ts:150-158 | a node whose name or description mentions the technology, or whose primary language is mapped to it, is always found |
| GitHubApi.GithubFetch | src/utils/github.ts:186-190 | a non-ok response becomes an error naming its status; an ok response is passed on unchanged |
| TechBadge.ToInt32 | src/components/TechBadge.tsx:133 | the value modulo 2^32 read as a signed 32-bit integer |
| TechBadge.TruncRem | src/components/TechBadge.tsx:136-138 | JavaScript `%`: the dividend is the divisor times the quotient truncated toward zero plus the remainder, which is smaller than the divisor in magnitude and has the sign of the dividend |
| TechBadge.Hue | src/components/TechBadge.tsx:136 | the hue is in [0, 359] for every hash |
| TechBadge.Saturation | src/components/TechBadge.tsx:137 | the saturation is in [65, 84] for every hash |
| TechBadge.Lightness | src/components/TechBadge.tsx:138 | the lightness is in [45, 64] and always twenty below the saturation |
| TechBadge.HslColor | src/components/TechBadge.tsx:140 | the colour starts with "hsl(" and contains no '#' |
| TechBadge.Abbreviation | src/components/TechBadge.tsx:143-156 | the abbreviation has at most three characters (with the ASCII case mapping of this model) |
| TechBadge.SplitInitials | src/components/TechBadge.tsx:146-149 | splitting and joining the upper-cased first characters picks exactly the characters that begin a word; empty pieces contribute nothing |
| TechBadge.CompoundAbbreviation | src/components/TechBadge.tsx:144-152 | a compound name is abbreviated to the first three word initials |
| TechBadge.SimpleAbbreviation | src/components/TechBadge.tsx:153-155 | a single-word name is abbreviated to its first three characters, upper-cased |
| TechBadge.LeadingSeparatorIgnored | src/components/TechBadge.tsx:146-149 | a name made of one separator and one word is abbreviated to that word's initial |
| TechBadge.DotNetAbbreviation | src/components/TechBadge.tsx:144-152 | ".NET" is abbreviated "N" |
| TechBadge.GenerateTechColor | src/components/TechBadge.tsx:129-163 | the hash loop and the colour and abbreviation steps yield the generated badge: hsl colour, abbreviation and category 'other' |
| TechBadge.TextColor | src/components/TechBadge.tsx:114-126 | the label colour is only ever '#000000' or '#ffffff' |
| TechBadge.GeneratedTextIsWhite | src/components/TechBadge.tsx:115-125 | a generated colour parses as NaN, so every generated badge gets a white label |
| TechBadge.HexChannel | src/components/TechBadge.tsx:117-119 | two hexadecimal digits at a position parse to the byte they spell |
| TechBadge.HexColorTextColor | src/components/TechBadge.tsx:116-125 | for `#rrggbb` the label is black exactly when 299r + 587g + 114b exceeds half of 255000 |
| TechBadge.HexChannelsColor | src/components/TechBadge.tsx:116-125 | six hexadecimal digits are read as three bytes, and the label is black exactly when their weighted sum exceeds 127500 |
| TechBadge.HslTextIsWhite | src/components/TechBadge.tsx:115-125 | every `hsl(...)` colour gets a white label |
| TechBadge.UnparsableTextIsWhite | src/components/TechBadge.tsx:115-125 | a colour without '#' whose first character cannot begin a hexadecimal number gets a white label |
| TechBadge.BadgeInfo | src/components/TechBadge.tsx:167-176 | a known technology uses its table entry; any other uses the generated badge (category 'other', at most three letters, white label); the label colour is read from the badge colour |
| SkillDetailModal.KeyPoints | src/components/SkillDetailModal.tsx:37-39 | the first `min(2, n)` of the `n` descriptions that mention the skill ignoring case, in order |
| SkillDetailModal.FindRelatedExperiences | src/components/SkillDetailModal.tsx:30-41 | one entry per experience whose tech stack lists the skill exactly, in order, copying title, company and period and carrying its key points |
| SkillDetailModal.RelatedConcat | src/components/SkillDetailModal.tsx:31-40 | the related experiences of two lists joined are those of each list joined |
| SkillDetailModal.RelatedSingle | src/components/SkillDetailModal.tsx:31-33 | a single experience is related iff its tech stack lists the skill by exact name |
| SkillDetailModal.PublicRepos | src/components/SkillDetailModal.tsx:73 | exactly the repositories not flagged private, drawn from the found ones |
| SkillDetailModal.PrivateRepos | src/components/SkillDetailModal.tsx:74 | exactly the repositories flagged private, drawn from the found ones |
| SkillDetailModal.ReposPartitioned | src/components/SkillDetailModal.tsx:73-74 | the public and private lists partition the repositories as multisets |
| SkillDetailModal.PartitionKeepsOrder | src/components/SkillDetailModal.tsx:73-74 | both lists keep the order of the repositories |
| SkillDetailModal.UnflaggedRepoIsPublic | src/components/SkillDetailModal.tsx:73-74 | a repository without the private flag, or with it false, is public |
| SkillDetailModal.PrivateNoteFor | src/components/SkillDetailModal.tsx:315-334 | a note iff some repository is private, carrying the count; "project" and "uses" iff the count is one, "projects" and "use" otherwise |
| SkillDetailModal.Render | src/components/SkillDetailModal.tsx:68-312 | nothing for a null or empty skill; otherwise the related experiences (the empty message iff none), a spinner iff loading, and once loaded the public repositories (the empty message iff none) and the private note |
| SkillDetailModal.LoadedViewAccountsForEveryRepo | src/components/SkillDetailModal.tsx:228-334 | the public cards plus the private count equal the number of repositories, and the note shows iff some repository is private |
| SkillDetailModal.ReposAfterEffect | src/components/SkillDetailModal.tsx:49-66 | the list changes only when the modal is open on a non-empty skill; then it is the search result: `[]` when the request threw, was not ok or had no nodes, otherwise exactly the matching nodes in their order |
| PortfolioData.StoredEntriesNamedByKey | src/data/portfolioData.ts:101-181 | every stored entry carries its own key as its name |
| PortfolioData.GetSkillDetails | src/data/portfolioData.ts:184-191 | the name is the argument; a stored name gives its entry; any other gives intermediate level and no projects or experiences |
| PortfolioData.LookupIsCaseSensitive | src/data/portfolioData.ts:185 | "typescript" gets the default with no projects while "TypeScript" gets its stored projects |
| PortfolioData.CategoryLevel | src/data/portfolioData.ts:4-45 | a level exists iff some category lists the skill by name |
| PortfolioData.SkillLevelIn | src/data/portfolioData.ts:4-45 | a level exists iff the list has the skill, and it is that skill's level |
| PortfolioData.TypeScriptAndJuliaLevels | src/data/portfolioData.ts:8-11 | the categories list TypeScript as expert and Julia as intermediate |
| PortfolioData.ReactLevel | src/data/portfolioData.ts:18 | the categories list React as expert |
| PortfolioData.DetailsAgreeWithCategories | src/data/portfolioData.ts:101-181 | every stored entry has the level its category lists |
| SkillsSection.LevelLabel | src/components/SkillsSection.tsx:8-13 | a non-empty label for each level, each with its own first letter |
| SkillsSection.LabelsDistinct | src/components/SkillsSection.tsx:8-13 | two levels with the same label are the same level |
| SkillsSection.ChipLabel | src/components/SkillsSection.tsx:42 | the skill name, then " • ", then the level label |
| SkillsSection.SkillsSectionState.constructor | src/components/SkillsSection.tsx:16-17 | nothing selected and the dialog closed |
| SkillsSection.SkillsSectionState.HandleSkillClick | src/components/SkillsSection.tsx:21-25 | selects the details of the clicked name and opens the dialog |
| SkillsSection.SkillsSectionState.Close | src/components/SkillsSection.tsx:64 | closes the dialog and keeps the selection |
| SkillsSection.ProjectsBoxFor | src/components/SkillsSection.tsx:81-129 | the message iff there are no projects; otherwise the public projects in order, with the private note iff some project is not public |
| SkillsSection.HasPrivateProject | src/components/SkillsSection.tsx:117 | true iff some project is not public |
| SkillsSection.CardsAndNoteCoverProjects | src/components/SkillsSection.tsx:81-123 | cards and hidden projects together are all projects; the note shows iff some project is hidden; with only private projects there are no cards, only the note |
| SkillsSection.DialogFor | src/components/SkillsSection.tsx:69-160 | a dialog iff a skill is selected, titled with its chip label, with its projects box, its experiences and the empty message iff it has none |
| SkillsSection.ClickOnUndetailedSkill | src/components/SkillsSection.tsx:69-147 | a skill without stored details opens a dialog titled with the intermediate level, the no-projects message and no experiences |
| TerminalInnovations.StepIndex | src/components/TerminalInnovations.tsx:98-112 | up never increases the index and down never decreases it; each moves by at most one and stays in range; other keys leave it |
| TerminalInnovations.NavigateStaysInRange | src/components/TerminalInnovations.tsx:99-107 | from an index in range, any key sequence keeps it in range |
| TerminalInnovations.SelectionClampsAtEnds | src/components/TerminalInnovations.tsx:101-106 | up at the top and down at the bottom do nothing; down from the top moves to the second project |
| TerminalInnovations.DownPresses | src/components/TerminalInnovations.tsx:104-107 | n presses of down from the top select `min(n, count - 1)` |
| TerminalInnovations.RepoPath | src/components/TerminalInnovations.tsx:126 | the first occurrence of "https://github.com/" is cut out wherever it is (a leading one leaves the rest); a URL without it is unchanged |
| TerminalInnovations.RepoPathOfGithubUrl | src/components/TerminalInnovations.tsx:126 | a GitHub URL gives `owner/name` |
| TerminalInnovations.Fetched | src/components/TerminalInnovations.tsx:125-140 | only `githubData` may change; an ok response sets stars and forks; a failed or non-ok request leaves the project as it was |
| TerminalInnovations.AllFetched | src/components/TerminalInnovations.tsx:122-143 | each project after its own request, same length and order |
| TerminalInnovations.FetchKeepsProjects | src/components/TerminalInnovations.tsx:122-143 | fetching keeps each project's name, repository and technologies, and its statistics when its request fails |
| TerminalInnovations.FailedFetchLeavesNoData | src/components/TerminalInnovations.tsx:124-137 | a featured project whose request fails has no statistics |
| TerminalInnovations.Terminal.constructor | src/components/TerminalInnovations.tsx:89-93 | the featured projects, index zero, details hidden, not loading |
| TerminalInnovations.Terminal.HandleSelectProject | src/components/TerminalInnovations.tsx:149-157 | starts loading and schedules one clone completion; nothing else changes |
| TerminalInnovations.Terminal.HandleKey | src/components/TerminalInnovations.tsx:96-117 | arrows move the index as `StepIndex`; Enter starts a selection only while details are hidden; the index stays in range |
| TerminalInnovations.Terminal.ClickProject | src/components/TerminalInnovations.tsx:488-491 | selects the clicked project and starts loading |
| TerminalInnovations.Terminal.CompleteClone | src/components/TerminalInnovations.tsx:153-156 | shows the details and stops loading |
| TerminalInnovations.Terminal.ResetTerminal | src/components/TerminalInnovations.tsx:159-161 | hides the details and keeps the selected index |
| TerminalInnovations.Terminal.FetchProjectData | src/components/TerminalInnovations.tsx:120-147 | the loop leaves the projects as each one after its own request, and the rest of the state as it was |
| Experience.ToggleArchitecture | src/components/Experience.tsx:14-22 | only entry `index` changes; its shown architecture flag is negated and its metrics flag kept (none for a new entry) |
| Experience.ToggleMetrics | src/components/Experience.tsx:24-32 | only entry `index` changes; its shown metrics flag is negated and its architecture flag kept (none for a new entry) |
| Experience.ToggleChangesOnePanel | src/components/Experience.tsx:14-32 | a toggle changes only the shown flag it toggles, at its own index |
| Experience.FirstToggleOpens | src/components/Experience.tsx:12-29 | nothing is shown at first and the first toggle of a panel opens it |
| Experience.ToggleTwiceRestores | src/components/Experience.tsx:19-29 | toggling the same panel twice shows what was shown before |
| Experience.ExperienceState.constructor | src/components/Experience.tsx:10-12 | no entries |
| Experience.ExperienceState.HandleToggleArchitecture | src/components/Experience.tsx:14-22 | the state becomes the architecture toggle of the old state |
| Experience.ExperienceState.HandleToggleMetrics | src/components/Experience.tsx:24-32 | the state becomes the metrics toggle of the old state |
| TechIcon.DevIcon | src/components/TechIcon.tsx:12-37 | every icon URL is the devicon base followed by the icon's path |
| TechIcon.FallbackIconFor | src/components/TechIcon.tsx:48-55 | the first matching rule wins: API/REST, then Cloud/AWS/Azure, then SQL/DB, then Testing/TDD/BDD, then DevOps/CI/CD, else Language; each icon iff its rule matches and no earlier one does |
| TechIcon.IconFor | src/components/TechIcon.tsx:57-94 | the image iff the name has a URL in the table, otherwise the fallback icon |
| TechIcon.NoCapitalsMeansLanguageIcon | src/components/TechIcon.tsx:49-54 | matching is case-sensitive: a name without capitals falls through to the Language icon |
| TechIcon.LowercaseRestGetsLanguageIcon | src/components/TechIcon.tsx:49-54 | "rest" gets the Language icon |
| TechIcon.AzureToolsGetCloudIcon | src/components/TechIcon.tsx:49-50 | an "Azure" name without 'P' or 'R' gets the Cloud icon |
| TechIcon.AzureDevOpsMentionsBuild | src/components/TechIcon.tsx:53 | an Azure name containing "DevOps" also meets the Build rule |
| TechIcon.AzureDevOpsGetsCloudIcon | src/components/TechIcon.tsx:50-53 | because of the order, "Azure DevOps" gets Cloud and not Build |
| ColorMode.Toggled | src/hooks/useColorMode.ts:10 | the toggle always changes the mode |
| ColorMode.ToggleTwice | src/hooks/useColorMode.ts:10 | toggling twice gives back the mode |
| ColorMode.ToggleParity | src/hooks/useColorMode.ts:10 | after an even number of toggles the mode is the original, after an odd number the other |
| ColorMode.ColorModeState.constructor | src/hooks/useColorMode.ts:7 | the mode starts dark |
| ColorMode.ColorModeState.ToggleColorMode | src/hooks/useColorMode.ts:9-11 | the mode becomes the toggled mode |
| ColorMode.ColorModeState.CurrentTheme | src/hooks/useColorMode.ts:13-17 | the theme's palette mode is the current mode |
| Entries.TopNCorrect | src/components/GitHubSection.tsx:130-132 | a stable descending sort followed by `slice(0, n)` keeps `min(n, len)` entries drawn from the input, non-increasing, with nothing left out ranked above a kept one |
| Entries.SortDescCorrect | src/components/GitHubSection.tsx:131 | the sort is a permutation, non-increasing, and keeps the input order among equal keys |
| Seqs.Partition | src/components/SkillDetailModal.tsx:73-74 | a filter and its negation split a list as a multiset |
| Text.ReplaceFirst | src/components/TerminalInnovations.tsx:126 | replacing a string pattern changes nothing when it is absent and otherwise swaps its first occurrence, wherever it is (a leading one in particular) |
| Text.ParseTwoHexDigits | src/components/TechBadge.tsx:117-119 | `parseInt` of two hexadecimal digits in base 16 is the byte they spell |

## Left out

- Network transport: `fetch`, the GraphQL query text, headers and tokens. The answer of each request is an input to the model.
- Floating point. Percentages are exact rationals, so two different byte counts never round to the same percentage here. The average repository size and the MB/`toFixed` formatting are not modelled.
- TechBadge.TextColor: the luminance test is the exact rational form 299r + 587g + 114b > 127500. Floating-point rounding right at that boundary is not modelled.
- TechBadge.Hash: JavaScript numbers are exact here. The hash of a very long name, where `hash` would leave the range of exactly representable doubles (2^53), is not modelled.
- Randomness. The featured shuffle is a permutation passed in. The random "since" year of the skill modal is not modelled.
- Dates. The month key of a push date is an opaque function of `pushed_at`. `toLocaleDateString` is kept as a string from the response.
- Timers. The 1.5 s clone delay is the separate `CompleteClone` step, counted by `pendingClones`.
- TechBadge.Abbreviation: the bound of three characters holds because case mapping here is ASCII only. The source upper-cases after cutting to three, so in JavaScript a letter such as 'ß' becomes "SS" and the abbreviation can grow longer than three.
- Case mapping covers ASCII letters only. `toLowerCase`/`toUpperCase` of other characters, and strings as UTF-16 code units, are not modelled.
- Object keys. Keys that hit `Object.prototype` members (`constructor`, `toString`) are not modelled. Neither is the JavaScript rule that orders integer-like keys first.
- `getSkillLevel` is imported by the skill modal but never defined, so the modal's level is not modelled.
- SkillDetailModal.ReposAfterEffect: one effect run is one step. The source's effect is never cancelled, so a slower earlier search can finish after a later one and overwrite its list. That interleaving of overlapping searches is not modelled.
- The modal's transient `loading` flag is an input of `Render`. The effect's `setLoading` calls are not modelled.
- The résumé experiences are an input rather than the fixed résumé data.
- TerminalInnovations.Terminal.FetchProjectData: the source's loop writes into objects shared with the featured-project constant. The model replaces the project values instead, so that aliasing is not captured.
- The `location` field of a résumé experience is carried but not used by any modelled operation.
- Rendering, styling, animation, layout and the purely presentational components.
