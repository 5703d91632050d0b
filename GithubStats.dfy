/**
 * The dashboard hook of `src/hooks/useGithub.ts`: account age, the aggregation
 * of a user's repositories (repositories per primary language, star and fork
 * totals, the six most used languages), the contribution totals and the state
 * the hook keeps between searches. The HTTP and GraphQL answers are inputs.
 */
module GithubStats {
  import opened JsText
  import opened Repos
  import Sorting

  // ---------------------------------------------------------------------
  // calculateAccountAge

  datatype AccountAge = AccountAge(years: int, months: int)

  /**
   * Whole years and remaining months between the creation month and now, from
   * `getFullYear()` and `getMonth()` (months are numbered 0 to 11). The day of
   * the month plays no part.
   */
  function CalculateAccountAge(createdYear: int, createdMonth: int, nowYear: int, nowMonth: int): (a: AccountAge)
    ensures a.years * 12 + a.months == (nowYear - createdYear) * 12 + (nowMonth - createdMonth)
    ensures 0 <= createdMonth < 12 && 0 <= nowMonth < 12 ==> 0 <= a.months < 12
  {
    var years := nowYear - createdYear;
    var months := nowMonth - createdMonth;
    if months < 0 then AccountAge(years - 1, 12 + months) else AccountAge(years, months)
  }

  /** The displayed text: `${years} ans ${months} mois`. */
  function FormatAccountAge(a: AccountAge): string {
    IntToString(a.years) + " ans " + IntToString(a.months) + " mois"
  }

  /** The first space-separated word of the displayed age parses back to the number of years. */
  lemma AccountAgeYearsParse(a: AccountAge)
    ensures ParseInt(FirstToken(FormatAccountAge(a), ' ')) == Some(a.years)
  {
    var rest := " ans " + IntToString(a.months) + " mois";
    assert FormatAccountAge(a) == IntToString(a.years) + rest;
    FirstTokenOfConcat(IntToString(a.years), rest, ' ');
    ParseIntOfIntToString(a.years);
  }

  // ---------------------------------------------------------------------
  // fetchGitHubData: the aggregation over the repository list

  function EntryValue(e: LanguageCount): int {
    e.value
  }

  const TopLanguageCount: nat := 6

  /** `Object.entries(languageMap).map(...).sort((a, b) => b.value - a.value).slice(0, 6)` */
  function TopLanguages(entries: seq<LanguageCount>): seq<LanguageCount> {
    Sorting.Top(entries, EntryValue, TopLanguageCount)
  }

  /**
   * The loop over the repositories: one more repository for its language (when
   * it has one), and its stars and forks added to the totals whether or not it
   * has a language; then the six most used languages are kept.
   */
  method AggregateRepos(repos: seq<Repo>) returns (languages: seq<LanguageCount>, stats: RepoStats)
    ensures languages == TopLanguages(LanguageCounts(repos))
    ensures stats == RepoStats(SumStars(repos), SumForks(repos))
  {
    var languageMap: seq<LanguageCount> := [];
    var totalStars, totalForks := 0, 0;
    for i := 0 to |repos|
      invariant languageMap == LanguageCounts(repos[..i])
      invariant totalStars == SumStars(repos[..i])
      invariant totalForks == SumForks(repos[..i])
    {
      var repo := repos[i];
      assert repos[..i + 1][..i] == repos[..i];
      if HasLanguage(repo) {
        var name := repo.language.value;
        var k := IndexOf(languageMap, name);
        if k >= 0 {
          languageMap := languageMap[k := LanguageCount(name, languageMap[k].value + 1)];
        } else {
          languageMap := languageMap + [LanguageCount(name, 1)];
        }
      }
      totalStars := totalStars + repo.stargazersCount;
      totalForks := totalForks + repo.forksCount;
    }
    assert repos[..|repos|] == repos;
    languages := TopLanguages(languageMap);
    stats := RepoStats(totalStars, totalForks);
  }

  /**
   * The language list kept after a search: at most six (name, count) pairs of
   * the dictionary, by non-increasing count, each holding the true number of
   * repositories of that language, and no dropped language more used than a
   * kept one.
   */
  lemma TopLanguagesOfRepos(repos: seq<Repo>)
    ensures var top := TopLanguages(LanguageCounts(repos));
      && |top| == (if |LanguageCounts(repos)| <= 6 then |LanguageCounts(repos)| else 6)
      && Sorting.SortedDesc(top, EntryValue)
      && (forall e :: e in top ==> e in LanguageCounts(repos) && e.value == CountOf(repos, e.name) >= 1)
      && (forall e, d :: e in top && d in multiset(LanguageCounts(repos)) - multiset(top) ==> e.value >= d.value)
  {
    var entries := LanguageCounts(repos);
    var top := TopLanguages(entries);
    LanguageCountsEntries(repos);
    Sorting.TopSpec(entries, EntryValue, TopLanguageCount);
    forall e | e in top ensures e in entries {
      assert e in multiset(top);
    }
  }

  /**
   * The counts do not depend on the order of the repositories
   * (`AggregationOrderIndependent`), but the kept list does: languages used
   * equally often stay in the order of their first repository, so swapping a
   * Go and a Rust repository swaps the two entries.
   */
  lemma TopLanguagesTieOrder()
    ensures var go, rust := Repo(Some("Go"), 0, 0), Repo(Some("Rust"), 0, 0);
      && multiset([go, rust]) == multiset([rust, go])
      && TopLanguages(LanguageCounts([go, rust])) == [LanguageCount("Go", 1), LanguageCount("Rust", 1)]
      && TopLanguages(LanguageCounts([rust, go])) == [LanguageCount("Rust", 1), LanguageCount("Go", 1)]
  {
    TopOfTwoLanguages("Go", "Rust");
    TopOfTwoLanguages("Rust", "Go");
  }

  /** Two repositories of two different languages keep their languages in order. */
  lemma TopOfTwoLanguages(a: string, b: string)
    requires a != b && a != "" && b != ""
    ensures TopLanguages(LanguageCounts([Repo(Some(a), 0, 0), Repo(Some(b), 0, 0)]))
         == [LanguageCount(a, 1), LanguageCount(b, 1)]
  {
    var ra, rb := Repo(Some(a), 0, 0), Repo(Some(b), 0, 0);
    var ea, eb := LanguageCount(a, 1), LanguageCount(b, 1);
    assert [ra, rb][..1] == [ra] && [ra][..0] == [];
    assert LanguageCounts([ra]) == Increment([], a) == [ea];
    assert IndexOf([ea], b) == -1 by {
      assert [ea][1..] == [];
    }
    assert LanguageCounts([ra, rb]) == Increment([ea], b) == [ea, eb];
    SortDescOfTies(ea, eb);
  }

  lemma SortDescOfTies(x: LanguageCount, y: LanguageCount)
    requires x.value == y.value
    ensures TopLanguages([x, y]) == [x, y]
  {
    assert [x, y][1..] == [y] && [y][1..] == [];
    assert Sorting.SortDesc([y], EntryValue) == Sorting.Insert(y, [], EntryValue) == [y];
    assert Sorting.SortDesc([x, y], EntryValue) == Sorting.Insert(x, [y], EntryValue) == [x, y];
  }

  // ---------------------------------------------------------------------
  // fetchContributionData

  datatype ContributionsCollection = ContributionsCollection(
    totalCommitContributions: int,
    restrictedContributionsCount: int)

  datatype ContributionStats = ContributionStats(
    totalContributions: int,
    currentStreak: int,
    maxStreak: int,
    contributionsLastYear: int)

  /**
   * `setContributionStats(prev => ({ ...prev, totalContributions, contributionsLastYear }))`:
   * the streak fields are carried over untouched (nothing computes them).
   */
  function WithContributions(prev: ContributionStats, c: ContributionsCollection): (r: ContributionStats)
    ensures r.totalContributions == c.totalCommitContributions + c.restrictedContributionsCount
    ensures r.contributionsLastYear == c.totalCommitContributions
    ensures r.currentStreak == prev.currentStreak && r.maxStreak == prev.maxStreak
    ensures c.restrictedContributionsCount >= 0 ==> r.contributionsLastYear <= r.totalContributions
  {
    prev.(totalContributions := c.totalCommitContributions + c.restrictedContributionsCount,
          contributionsLastYear := c.totalCommitContributions)
  }

  // ---------------------------------------------------------------------
  // The hook's state

  datatype GitHubUser = GitHubUser(
    login: string, avatarUrl: string, bio: string, publicRepos: int, followers: int,
    following: int, name: string, createdAt: string, publicGists: int)

  /** The outcome of one awaited request: its data, or a rejection. */
  datatype Fetched<T> = Fetched(value: T) | FetchFailed

  const FetchErrorMessage := "Utilisateur non trouvé ou erreur de l'API GitHub"

  datatype RepoStats = RepoStats(stars: int, forks: int)

  datatype DashboardState = DashboardState(
    username: string, userData: Option<GitHubUser>, languages: seq<LanguageCount>,
    repoStats: RepoStats, contributionStats: ContributionStats, loading: bool, error: string)

  class Dashboard {
    var username: string
    var userData: Option<GitHubUser>
    var languages: seq<LanguageCount>
    var repoStats: RepoStats
    var contributionStats: ContributionStats
    var loading: bool
    var error: string

    /** All seven state fields as one value. */
    function Snapshot(): DashboardState
      reads this
    {
      DashboardState(username, userData, languages, repoStats, contributionStats, loading, error)
    }

    /** The streaks are never computed: they stay at their initial 0. */
    predicate StreaksUntouched()
      reads this
    {
      contributionStats.currentStreak == 0 && contributionStats.maxStreak == 0
    }

    constructor()
      ensures username == "" && userData == None && languages == []
      ensures repoStats == RepoStats(0, 0)
      ensures contributionStats == ContributionStats(0, 0, 0, 0)
      ensures !loading && error == ""
      ensures StreaksUntouched()
    {
      username := "";
      userData := None;
      languages := [];
      repoStats := RepoStats(0, 0);
      contributionStats := ContributionStats(0, 0, 0, 0);
      loading := false;
      error := "";
    }

    method SetUsername(name: string)
      modifies this
      ensures username == name
      ensures userData == old(userData) && languages == old(languages) && repoStats == old(repoStats)
      ensures contributionStats == old(contributionStats) && loading == old(loading) && error == old(error)
    {
      username := name;
    }

    /**
     * `fetchGitHubData`, given the outcome of the user request, the repository
     * request and the contribution query.
     */
    method FetchGitHubData(user: Fetched<GitHubUser>, repos: Fetched<seq<Repo>>,
                           contributions: Fetched<ContributionsCollection>)
      modifies this
      ensures Snapshot() == AfterFetch(old(Snapshot()), user, repos, contributions)
    {
      if username != "" {
        loading := true;
        error := "";
        match user {
          case FetchFailed =>
            error := FetchErrorMessage;
          case Fetched(u) =>
            userData := Some(u);
            match repos {
              case FetchFailed =>
                error := FetchErrorMessage;
              case Fetched(rs) =>
                languages, repoStats := AggregateRepos(rs);
                match contributions {
                  case Fetched(c) =>
                    contributionStats := WithContributions(contributionStats, c);
                  case FetchFailed =>
                }
            }
        }
        loading := false;
      }
    }
  }

  /**
   * The state after `fetchGitHubData`. An empty username changes nothing. A
   * failed user or repository request sets the error message and keeps what
   * was already set; a failed contribution query is only logged.
   */
  function AfterFetch(s: DashboardState, user: Fetched<GitHubUser>, repos: Fetched<seq<Repo>>,
                      contributions: Fetched<ContributionsCollection>): DashboardState
  {
    if s.username == "" then s
    else match user
      case FetchFailed => s.(loading := false, error := FetchErrorMessage)
      case Fetched(u) =>
        match repos
        case FetchFailed => s.(userData := Some(u), loading := false, error := FetchErrorMessage)
        case Fetched(rs) =>
          s.(userData := Some(u), languages := TopLanguages(LanguageCounts(rs)),
             repoStats := RepoStats(SumStars(rs), SumForks(rs)),
             contributionStats := match contributions
               case Fetched(c) => WithContributions(s.contributionStats, c)
               case FetchFailed => s.contributionStats,
             loading := false, error := "")
  }

  /**
   * What a search leaves behind: the same username, loading over, the error
   * message iff the user or the repository request failed, the user kept as
   * soon as its request succeeded, the repository figures and languages only
   * when both requests succeeded, and the streaks as they were.
   */
  lemma AfterFetchSpec(s: DashboardState, user: Fetched<GitHubUser>, repos: Fetched<seq<Repo>>,
                       contributions: Fetched<ContributionsCollection>)
    requires s.username != ""
    ensures var t := AfterFetch(s, user, repos, contributions);
      && t.username == s.username && !t.loading
      && (t.error == FetchErrorMessage <==> user.FetchFailed? || repos.FetchFailed?)
      && (t.error != FetchErrorMessage ==> t.error == "")
      && (user.Fetched? ==> t.userData == Some(user.value))
      && (user.FetchFailed? ==> t.userData == s.userData)
      && (t.languages != s.languages || t.repoStats != s.repoStats ==> user.Fetched? && repos.Fetched?)
      && (user.Fetched? && repos.Fetched? ==>
            |t.languages| <= 6 && t.repoStats == RepoStats(SumStars(repos.value), SumForks(repos.value)))
      && t.contributionStats.currentStreak == s.contributionStats.currentStreak
      && t.contributionStats.maxStreak == s.contributionStats.maxStreak
  {
    if user.Fetched? && repos.Fetched? {
      TopLanguagesOfRepos(repos.value);
    }
  }

  /** Without a username the search is not started. */
  lemma AfterFetchWithoutUsername(s: DashboardState, user: Fetched<GitHubUser>, repos: Fetched<seq<Repo>>,
                                  contributions: Fetched<ContributionsCollection>)
    requires s.username == ""
    ensures AfterFetch(s, user, repos, contributions) == s
  {
  }
}
