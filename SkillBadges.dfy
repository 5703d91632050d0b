/**
 * `getTopSkills` of `src/components/SkillBadges.tsx`: an ordered list of
 * threshold rules, one category after another, each adding at most one badge.
 */
module SkillBadges {
  import opened JsText
  import opened Repos
  import GithubStats

  /** The lucide-react icon drawn on a badge. */
  datatype Icon = Code | Trophy | GitBranch | GitCommit | Star | Users | Rocket | Zap | GitPullRequest | Shield | Clock

  datatype Skill = Skill(name: string, icon: Icon, color: string)

  datatype PullRequestCounts = PullRequestCounts(open: int, closed: int, merged: int)
  datatype IssueCounts = IssueCounts(open: int, closed: int)

  /** The component's props; `languages` holds `{ name, value }` pairs. */
  datatype SkillProps = SkillProps(
    languages: seq<LanguageCount>, stars: int, contributions: int, repositories: int,
    followers: int, pullRequests: PullRequestCounts, issues: IssueCounts, accountAge: string)

  // ---------------------------------------------------------------------
  // The two reductions over `languages`

  function TotalCode(langs: seq<LanguageCount>): int {
    if |langs| == 0 then 0 else TotalCode(langs[..|langs| - 1]) + langs[|langs| - 1].value
  }

  datatype LanguageStats = LanguageStats(
    jsTsTotal: int, pythonTotal: int, javaTotal: int, cppTotal: int,
    rustTotal: int, goTotal: int, isTypeScript: bool)

  const NoLanguageStats := LanguageStats(0, 0, 0, 0, 0, 0, false)

  /** Which bucket of the reduce a lower-cased name feeds (0 for none), first match wins. */
  function Bucket(lowerName: string): (b: int)
    ensures 0 <= b <= 6
  {
    if lowerName == "typescript" || lowerName == "javascript" then 1
    else if lowerName == "python" then 2
    else if lowerName == "java" then 3
    else if lowerName == "c++" || lowerName == "cpp" then 4
    else if lowerName == "rust" then 5
    else if lowerName == "go" then 6
    else 0
  }

  /** The names each bucket accepts; every other name feeds no bucket. */
  lemma BucketNames(lowerName: string)
    ensures Bucket(lowerName) == 1 <==> lowerName == "typescript" || lowerName == "javascript"
    ensures Bucket(lowerName) == 2 <==> lowerName == "python"
    ensures Bucket(lowerName) == 3 <==> lowerName == "java"
    ensures Bucket(lowerName) == 4 <==> lowerName == "c++" || lowerName == "cpp"
    ensures Bucket(lowerName) == 5 <==> lowerName == "rust"
    ensures Bucket(lowerName) == 6 <==> lowerName == "go"
  {
  }

  /** One step of the `languageStats` reduce, comparing lower-cased names. */
  function Accumulate(acc: LanguageStats, lang: LanguageCount): LanguageStats {
    var lowerName := ToLower(lang.name);
    match Bucket(lowerName)
    case 1 =>
      acc.(jsTsTotal := acc.jsTsTotal + lang.value,
           isTypeScript := acc.isTypeScript || lowerName == "typescript")
    case 2 => acc.(pythonTotal := acc.pythonTotal + lang.value)
    case 3 => acc.(javaTotal := acc.javaTotal + lang.value)
    case 4 => acc.(cppTotal := acc.cppTotal + lang.value)
    case 5 => acc.(rustTotal := acc.rustTotal + lang.value)
    case 6 => acc.(goTotal := acc.goTotal + lang.value)
    case _ => acc
  }

  function LanguageStatsOf(langs: seq<LanguageCount>): LanguageStats {
    if |langs| == 0 then NoLanguageStats
    else Accumulate(LanguageStatsOf(langs[..|langs| - 1]), langs[|langs| - 1])
  }

  /** Reference definition: the summed value of the entries whose lower-cased name feeds `bucket`. */
  function GroupTotal(langs: seq<LanguageCount>, bucket: int): int {
    if |langs| == 0 then 0
    else
      var last := langs[|langs| - 1];
      GroupTotal(langs[..|langs| - 1], bucket) + (if Bucket(ToLower(last.name)) == bucket then last.value else 0)
  }

  predicate MentionsTypeScript(langs: seq<LanguageCount>) {
    exists i :: 0 <= i < |langs| && ToLower(langs[i].name) == "typescript"
  }

  /** What one step of the reduce adds to each bucket. */
  lemma AccumulateStep(acc: LanguageStats, lang: LanguageCount)
    ensures var next := Accumulate(acc, lang);
      var b := Bucket(ToLower(lang.name));
      && next.jsTsTotal == acc.jsTsTotal + (if b == 1 then lang.value else 0)
      && next.pythonTotal == acc.pythonTotal + (if b == 2 then lang.value else 0)
      && next.javaTotal == acc.javaTotal + (if b == 3 then lang.value else 0)
      && next.cppTotal == acc.cppTotal + (if b == 4 then lang.value else 0)
      && next.rustTotal == acc.rustTotal + (if b == 5 then lang.value else 0)
      && next.goTotal == acc.goTotal + (if b == 6 then lang.value else 0)
      && (next.isTypeScript <==> acc.isTypeScript || ToLower(lang.name) == "typescript")
  {
  }

  /**
   * Each bucket of the reduce is the total of its group of names, matched
   * without regard to ASCII case: TypeScript with JavaScript, C++ with cpp;
   * the bucket is labelled TypeScript iff some entry is named typescript.
   */
  lemma LanguageStatsGroups(langs: seq<LanguageCount>)
    ensures var stats := LanguageStatsOf(langs);
      && stats.jsTsTotal == GroupTotal(langs, 1)
      && stats.pythonTotal == GroupTotal(langs, 2)
      && stats.javaTotal == GroupTotal(langs, 3)
      && stats.cppTotal == GroupTotal(langs, 4)
      && stats.rustTotal == GroupTotal(langs, 5)
      && stats.goTotal == GroupTotal(langs, 6)
      && (stats.isTypeScript <==> MentionsTypeScript(langs))
  {
    BucketTotals(langs);
    TypeScriptFlag(langs);
  }

  lemma {:induction false} BucketTotals(langs: seq<LanguageCount>)
    ensures var stats := LanguageStatsOf(langs);
      && stats.jsTsTotal == GroupTotal(langs, 1)
      && stats.pythonTotal == GroupTotal(langs, 2)
      && stats.javaTotal == GroupTotal(langs, 3)
      && stats.cppTotal == GroupTotal(langs, 4)
      && stats.rustTotal == GroupTotal(langs, 5)
      && stats.goTotal == GroupTotal(langs, 6)
  {
    if |langs| > 0 {
      var prefix := langs[..|langs| - 1];
      var last := langs[|langs| - 1];
      BucketTotals(prefix);
      AccumulateStep(LanguageStatsOf(prefix), last);
    }
  }

  lemma {:induction false} TypeScriptFlag(langs: seq<LanguageCount>)
    ensures LanguageStatsOf(langs).isTypeScript <==> MentionsTypeScript(langs)
  {
    if |langs| > 0 {
      var prefix := langs[..|langs| - 1];
      var last := langs[|langs| - 1];
      TypeScriptFlag(prefix);
      AccumulateStep(LanguageStatsOf(prefix), last);
      assert forall i :: 0 <= i < |prefix| ==> prefix[i] == langs[i];
      if MentionsTypeScript(langs) && !MentionsTypeScript(prefix) {
        assert ToLower(last.name) == "typescript";
      }
      if MentionsTypeScript(prefix) {
        var i :| 0 <= i < |prefix| && ToLower(prefix[i].name) == "typescript";
        assert prefix[i] == langs[i];
      }
    }
  }

  // ---------------------------------------------------------------------
  // addLanguageBadge

  /**
   * `(total / totalCode) * 100 > percent`, evaluated exactly. A zero
   * `totalCode` gives Infinity, -Infinity or NaN, so only a positive `total`
   * passes.
   */
  predicate ShareAbove(total: int, totalCode: int, percent: int) {
    if totalCode > 0 then 100 * total > percent * totalCode
    else if totalCode < 0 then 100 * total < percent * totalCode
    else total > 0
  }

  /** For a non-zero code total the cross-multiplied test is the division test on real numbers. */
  lemma ShareAboveIsDivision(total: int, totalCode: int, percent: int)
    requires totalCode != 0
    ensures ShareAbove(total, totalCode, percent)
        <==> (total as real / totalCode as real) * 100.0 > percent as real
  {
    var q := total as real / totalCode as real;
    var d := totalCode as real;
    assert q * d == total as real;
    assert (q * 100.0 - percent as real) * d == 100.0 * total as real - percent as real * d;
  }

  function LanguageBadge(total: int, totalCode: int, name: string, color: string): (r: seq<Skill>)
    ensures |r| <= 1
    ensures r != [] ==> r[0].icon == Code && r[0].color == color
                        && (r[0].name == name + " Expert" || r[0].name == name + " Developer")
  {
    if ShareAbove(total, totalCode, 40) then [Skill(name + " Expert", Code, color)]
    else if ShareAbove(total, totalCode, 20) then [Skill(name + " Developer", Code, color)]
    else []
  }

  /**
   * `addLanguageBadge` in terms of the share `(total / totalCode) * 100`:
   * Expert above 40%, Developer above 20% up to 40%, nothing otherwise. With
   * no code at all the share is Infinity (a positive total, hence Expert), or
   * -Infinity or NaN (nothing).
   */
  lemma LanguageBadgeByShare(total: int, totalCode: int, name: string, color: string)
    ensures var r := LanguageBadge(total, totalCode, name, color);
      var share := if totalCode != 0 then (total as real / totalCode as real) * 100.0 else 0.0;
      && (totalCode != 0 ==>
            && (r == [Skill(name + " Expert", Code, color)] <==> share > 40.0)
            && (r == [Skill(name + " Developer", Code, color)] <==> 20.0 < share <= 40.0)
            && (r == [] <==> share <= 20.0))
      && (totalCode == 0 ==>
            && (total > 0 ==> r == [Skill(name + " Expert", Code, color)])
            && (total <= 0 ==> r == []))
  {
    if totalCode != 0 {
      ShareAboveIsDivision(total, totalCode, 40);
      ShareAboveIsDivision(total, totalCode, 20);
      var expert := name + " Expert";
      var developer := name + " Developer";
      assert expert != developer by {
        assert |expert| == |name| + 7 && |developer| == |name| + 10;
      }
    }
  }

  /** The merged JavaScript/TypeScript bucket is looked at only when its total is positive. */
  function JsTsBadge(stats: LanguageStats, totalCode: int): (r: seq<Skill>)
    ensures |r| <= 1
    ensures stats.jsTsTotal <= 0 ==> r == []
    ensures r != [] ==> (StartsWith(r[0].name, "TypeScript") <==> stats.isTypeScript)
    ensures r != [] ==> r[0].color == (if stats.isTypeScript then "bg-blue-500" else "bg-yellow-500")
  {
    assert "JavaScript"[0] != "TypeScript"[0];
    if stats.jsTsTotal > 0 then
      LanguageBadge(stats.jsTsTotal, totalCode,
                    if stats.isTypeScript then "TypeScript" else "JavaScript",
                    if stats.isTypeScript then "bg-blue-500" else "bg-yellow-500")
    else []
  }

  // ---------------------------------------------------------------------
  // The fixed tiers (all strict `>` except the polyglot and age rules)

  function ContributionBadge(contributions: int): (r: seq<Skill>)
    ensures |r| <= 1
    ensures r == [Skill("GitHub Legend", Trophy, "bg-yellow-500")] <==> contributions > 10000
    ensures r == [Skill("Top Contributor", GitBranch, "bg-green-500")] <==> 5000 < contributions <= 10000
    ensures r == [Skill("Active Contributor", GitCommit, "bg-green-400")] <==> 1000 < contributions <= 5000
    ensures r == [] <==> contributions <= 1000
  {
    if contributions > 10000 then [Skill("GitHub Legend", Trophy, "bg-yellow-500")]
    else if contributions > 5000 then [Skill("Top Contributor", GitBranch, "bg-green-500")]
    else if contributions > 1000 then [Skill("Active Contributor", GitCommit, "bg-green-400")]
    else []
  }

  function StarBadge(stars: int): (r: seq<Skill>)
    ensures |r| <= 1
    ensures r == [Skill("GitHub Superstar", Star, "bg-yellow-500")] <==> stars > 5000
    ensures r == [Skill("GitHub Star", Star, "bg-yellow-400")] <==> 1000 < stars <= 5000
    ensures r == [Skill("Star Collector", Star, "bg-yellow-300")] <==> 100 < stars <= 1000
    ensures r == [] <==> stars <= 100
  {
    if stars > 5000 then [Skill("GitHub Superstar", Star, "bg-yellow-500")]
    else if stars > 1000 then [Skill("GitHub Star", Star, "bg-yellow-400")]
    else if stars > 100 then [Skill("Star Collector", Star, "bg-yellow-300")]
    else []
  }

  function FollowerBadge(followers: int): (r: seq<Skill>)
    ensures |r| <= 1
    ensures r == [Skill("Community Leader", Users, "bg-purple-500")] <==> followers > 1000
    ensures r == [Skill("Popular Developer", Users, "bg-purple-400")] <==> 100 < followers <= 1000
    ensures r == [] <==> followers <= 100
  {
    if followers > 1000 then [Skill("Community Leader", Users, "bg-purple-500")]
    else if followers > 100 then [Skill("Popular Developer", Users, "bg-purple-400")]
    else []
  }

  function RepositoryBadge(repositories: int): (r: seq<Skill>)
    ensures |r| <= 1
    ensures r == [Skill("Code Machine", Rocket, "bg-purple-500")] <==> repositories > 200
    ensures r == [Skill("Productive Developer", Zap, "bg-purple-400")] <==> 100 < repositories <= 200
    ensures r == [Skill("Active Developer", Zap, "bg-purple-300")] <==> 50 < repositories <= 100
    ensures r == [] <==> repositories <= 50
  {
    if repositories > 200 then [Skill("Code Machine", Rocket, "bg-purple-500")]
    else if repositories > 100 then [Skill("Productive Developer", Zap, "bg-purple-400")]
    else if repositories > 50 then [Skill("Active Developer", Zap, "bg-purple-300")]
    else []
  }

  function PullRequestBadge(prs: PullRequestCounts): (r: seq<Skill>)
    ensures |r| <= 1
    ensures var total := prs.open + prs.closed + prs.merged;
      && (r == [Skill("PR Master", GitPullRequest, "bg-blue-500")] <==> total > 500)
      && (r == [Skill("PR Expert", GitPullRequest, "bg-blue-400")] <==> 100 < total <= 500)
      && (r == [] <==> total <= 100)
  {
    assert "PR Master"[3] != "PR Expert"[3];
    var totalPRs := prs.open + prs.closed + prs.merged;
    if totalPRs > 500 then [Skill("PR Master", GitPullRequest, "bg-blue-500")]
    else if totalPRs > 100 then [Skill("PR Expert", GitPullRequest, "bg-blue-400")]
    else []
  }

  /** Based on the number of entries in `languages`, not on their values. */
  function PolyglotBadge(languageCount: nat): (r: seq<Skill>)
    ensures |r| <= 1
    ensures r == [Skill("Ultimate Polyglot", Shield, "bg-indigo-500")] <==> languageCount >= 10
    ensures r == [Skill("Polyglot Developer", Shield, "bg-indigo-400")] <==> 5 <= languageCount < 10
    ensures r == [] <==> languageCount < 5
  {
    if languageCount >= 10 then [Skill("Ultimate Polyglot", Shield, "bg-indigo-500")]
    else if languageCount >= 5 then [Skill("Polyglot Developer", Shield, "bg-indigo-400")]
    else []
  }

  /** `parseInt(accountAge.split(' ')[0])`; NaN fails both comparisons. */
  function AgeBadge(accountAge: string): (r: seq<Skill>)
    ensures |r| <= 1
  {
    AgeTier(ParseInt(FirstToken(accountAge, ' ')))
  }

  function AgeTier(years: Option<int>): (r: seq<Skill>)
    ensures |r| <= 1
    ensures r == [Skill("GitHub Veteran", Clock, "bg-gray-500")] <==> years.Some? && years.value >= 10
    ensures r == [Skill("Experienced Developer", Clock, "bg-gray-400")] <==> years.Some? && 5 <= years.value < 10
    ensures r == [] <==> years.None? || years.value < 5
  {
    match years
    case Some(y) =>
      if y >= 10 then [Skill("GitHub Veteran", Clock, "bg-gray-500")]
      else if y >= 5 then [Skill("Experienced Developer", Clock, "bg-gray-400")]
      else []
    case None => []
  }

  /** The language badges, JavaScript/TypeScript first, then Python, Java, C++, Rust and Go. */
  function LanguageSkills(langs: seq<LanguageCount>): (r: seq<Skill>)
    ensures |r| <= 6
  {
    var totalCode := TotalCode(langs);
    var stats := LanguageStatsOf(langs);
    JsTsBadge(stats, totalCode)
    + LanguageBadge(stats.pythonTotal, totalCode, "Python", "bg-blue-400")
    + LanguageBadge(stats.javaTotal, totalCode, "Java", "bg-red-500")
    + LanguageBadge(stats.cppTotal, totalCode, "C++", "bg-purple-500")
    + LanguageBadge(stats.rustTotal, totalCode, "Rust", "bg-orange-500")
    + LanguageBadge(stats.goTotal, totalCode, "Go", "bg-blue-600")
  }

  /** `skills` followed by the badges of the fixed tiers, in push order. */
  function PushTierBadges(skills: seq<Skill>, p: SkillProps): (r: seq<Skill>)
    ensures |skills| <= |r| <= |skills| + 7
  {
    skills
    + ContributionBadge(p.contributions)
    + StarBadge(p.stars)
    + FollowerBadge(p.followers)
    + RepositoryBadge(p.repositories)
    + PullRequestBadge(p.pullRequests)
    + PolyglotBadge(|p.languages|)
    + AgeBadge(p.accountAge)
  }

  /** The badges in the order `getTopSkills` pushes them. */
  function TopSkills(p: SkillProps): (r: seq<Skill>)
    ensures |r| <= 13
  {
    PushTierBadges(LanguageSkills(p.languages), p)
  }

  /** `languages.reduce((sum, lang) => sum + lang.value, 0)` */
  method SumLanguageValues(langs: seq<LanguageCount>) returns (totalCode: int)
    ensures totalCode == TotalCode(langs)
  {
    totalCode := 0;
    for i := 0 to |langs|
      invariant totalCode == TotalCode(langs[..i])
    {
      assert langs[..i + 1][..i] == langs[..i];
      totalCode := totalCode + langs[i].value;
    }
    assert langs[..|langs|] == langs;
  }

  /** The `languageStats` reduce, one bucket per lower-cased name. */
  method ReduceLanguageStats(langs: seq<LanguageCount>) returns (acc: LanguageStats)
    ensures acc == LanguageStatsOf(langs)
  {
    acc := NoLanguageStats;
    for i := 0 to |langs|
      invariant acc == LanguageStatsOf(langs[..i])
    {
      assert langs[..i + 1][..i] == langs[..i];
      var lang := langs[i];
      var lowerName := ToLower(lang.name);
      match Bucket(lowerName) {
        case 1 =>
          acc := acc.(jsTsTotal := acc.jsTsTotal + lang.value);
          if lowerName == "typescript" {
            acc := acc.(isTypeScript := true);
          }
        case 2 => acc := acc.(pythonTotal := acc.pythonTotal + lang.value);
        case 3 => acc := acc.(javaTotal := acc.javaTotal + lang.value);
        case 4 => acc := acc.(cppTotal := acc.cppTotal + lang.value);
        case 5 => acc := acc.(rustTotal := acc.rustTotal + lang.value);
        case 6 => acc := acc.(goTotal := acc.goTotal + lang.value);
        case _ =>
      }
    }
    assert langs[..|langs|] == langs;
  }

  /**
   * `getTopSkills`: both reductions, then one push per rule that fires, in
   * category order.
   */
  method GetTopSkills(p: SkillProps) returns (skills: seq<Skill>)
    ensures skills == TopSkills(p)
  {
    var langs := p.languages;
    var totalCode := SumLanguageValues(langs);
    var acc := ReduceLanguageStats(langs);
    skills := JsTsBadge(acc, totalCode);
    skills := skills + LanguageBadge(acc.pythonTotal, totalCode, "Python", "bg-blue-400");
    skills := skills + LanguageBadge(acc.javaTotal, totalCode, "Java", "bg-red-500");
    skills := skills + LanguageBadge(acc.cppTotal, totalCode, "C++", "bg-purple-500");
    skills := skills + LanguageBadge(acc.rustTotal, totalCode, "Rust", "bg-orange-500");
    skills := skills + LanguageBadge(acc.goTotal, totalCode, "Go", "bg-blue-600");
    assert skills == LanguageSkills(langs);
    skills := skills + ContributionBadge(p.contributions);
    skills := skills + StarBadge(p.stars);
    skills := skills + FollowerBadge(p.followers);
    skills := skills + RepositoryBadge(p.repositories);
    skills := skills + PullRequestBadge(p.pullRequests);
    skills := skills + PolyglotBadge(|langs|);
    skills := skills + AgeBadge(p.accountAge);
  }

  // ---------------------------------------------------------------------
  // Properties of the rule table

  /**
   * The rule a badge comes from, in push order: a language badge by its name,
   * any other badge by its icon, which no two tier rules share; -1 for a
   * language badge of no rule.
   */
  function Category(skill: Skill): int {
    match skill.icon
    case Code => LanguageCategory(skill.name)
    case Trophy => 6
    case GitBranch => 6
    case GitCommit => 6
    case Star => 7
    case Users => 8
    case Rocket => 9
    case Zap => 9
    case GitPullRequest => 10
    case Shield => 11
    case Clock => 12
  }

  function LanguageCategory(name: string): int {
    if name in {"TypeScript Expert", "TypeScript Developer", "JavaScript Expert", "JavaScript Developer"} then 0
    else if name in {"Python Expert", "Python Developer"} then 1
    else if name in {"Java Expert", "Java Developer"} then 2
    else if name in {"C++ Expert", "C++ Developer"} then 3
    else if name in {"Rust Expert", "Rust Developer"} then 4
    else if name in {"Go Expert", "Go Developer"} then 5
    else -1
  }

  predicate InCategory(s: seq<Skill>, k: int) {
    |s| <= 1 && forall i :: 0 <= i < |s| ==> Category(s[i]) == k
  }

  /** Categories strictly increase along `s`, and all lie in 0 .. bound-1. */
  predicate OrderedBelow(s: seq<Skill>, bound: int) {
    && (forall i :: 0 <= i < |s| ==> 0 <= Category(s[i]) < bound)
    && (forall i, j :: 0 <= i < j < |s| ==> Category(s[i]) < Category(s[j]))
  }

  lemma AppendCategory(a: seq<Skill>, b: seq<Skill>, k: nat)
    requires OrderedBelow(a, k) && InCategory(b, k)
    ensures OrderedBelow(a + b, k + 1)
  {
  }

  lemma LanguageBadgeCategory(total: int, totalCode: int, name: string, color: string, k: nat)
    requires LanguageCategory(name + " Expert") == k && LanguageCategory(name + " Developer") == k
    ensures InCategory(LanguageBadge(total, totalCode, name, color), k)
  {
  }

  lemma JsTsBadgeCategory(stats: LanguageStats, totalCode: int)
    ensures InCategory(JsTsBadge(stats, totalCode), 0)
  {
    assert "TypeScript" + " Expert" == "TypeScript Expert";
    assert "TypeScript" + " Developer" == "TypeScript Developer";
    assert "JavaScript" + " Expert" == "JavaScript Expert";
    assert "JavaScript" + " Developer" == "JavaScript Developer";
  }

  lemma PythonCategories()
    ensures LanguageCategory("Python" + " Expert") == 1 && LanguageCategory("Python" + " Developer") == 1
  {
    assert "Python" + " Expert" == "Python Expert" && "Python" + " Developer" == "Python Developer";
  }

  lemma JavaCategories()
    ensures LanguageCategory("Java" + " Expert") == 2 && LanguageCategory("Java" + " Developer") == 2
  {
    assert "Java" + " Expert" == "Java Expert" && "Java" + " Developer" == "Java Developer";
  }

  lemma CppCategories()
    ensures LanguageCategory("C++" + " Expert") == 3 && LanguageCategory("C++" + " Developer") == 3
  {
    assert "C++" + " Expert" == "C++ Expert" && "C++" + " Developer" == "C++ Developer";
  }

  lemma RustCategories()
    ensures LanguageCategory("Rust" + " Expert") == 4 && LanguageCategory("Rust" + " Developer") == 4
  {
    assert "Rust" + " Expert" == "Rust Expert" && "Rust" + " Developer" == "Rust Developer";
  }

  lemma GoCategories()
    ensures LanguageCategory("Go" + " Expert") == 5 && LanguageCategory("Go" + " Developer") == 5
  {
    assert "Go" + " Expert" == "Go Expert" && "Go" + " Developer" == "Go Developer";
  }

  lemma ContributionBadgeCategory(contributions: int)
    ensures InCategory(ContributionBadge(contributions), 6)
  {
  }

  lemma StarBadgeCategory(stars: int)
    ensures InCategory(StarBadge(stars), 7)
  {
  }

  lemma FollowerBadgeCategory(followers: int)
    ensures InCategory(FollowerBadge(followers), 8)
  {
  }

  lemma RepositoryBadgeCategory(repositories: int)
    ensures InCategory(RepositoryBadge(repositories), 9)
  {
  }

  lemma PullRequestBadgeCategory(prs: PullRequestCounts)
    ensures InCategory(PullRequestBadge(prs), 10)
  {
  }

  lemma PolyglotBadgeCategory(languageCount: nat)
    ensures InCategory(PolyglotBadge(languageCount), 11)
  {
  }

  lemma AgeTierCategory(years: Option<int>)
    ensures InCategory(AgeTier(years), 12)
  {
  }

  /**
   * The badges come in the fixed category order (JS/TS, Python, Java, C++,
   * Rust, Go, contributions, stars, followers, repositories, pull requests,
   * polyglot, age), with at most one badge per category.
   */
  lemma TopSkillsOrdered(p: SkillProps)
    ensures OrderedBelow(TopSkills(p), 13)
  {
    LanguageSkillsOrdered(p.languages);
    ContributionBadgeCategory(p.contributions);
    StarBadgeCategory(p.stars);
    FollowerBadgeCategory(p.followers);
    RepositoryBadgeCategory(p.repositories);
    PullRequestBadgeCategory(p.pullRequests);
    PolyglotBadgeCategory(|p.languages|);
    AgeTierCategory(ParseInt(FirstToken(p.accountAge, ' ')));
    var acc := LanguageSkills(p.languages);
    AppendCategory(acc, ContributionBadge(p.contributions), 6); acc := acc + ContributionBadge(p.contributions);
    AppendCategory(acc, StarBadge(p.stars), 7); acc := acc + StarBadge(p.stars);
    AppendCategory(acc, FollowerBadge(p.followers), 8); acc := acc + FollowerBadge(p.followers);
    AppendCategory(acc, RepositoryBadge(p.repositories), 9); acc := acc + RepositoryBadge(p.repositories);
    AppendCategory(acc, PullRequestBadge(p.pullRequests), 10); acc := acc + PullRequestBadge(p.pullRequests);
    AppendCategory(acc, PolyglotBadge(|p.languages|), 11); acc := acc + PolyglotBadge(|p.languages|);
    AppendCategory(acc, AgeBadge(p.accountAge), 12); acc := acc + AgeBadge(p.accountAge);
  }

  /** The language badges come first, in bucket order, at most one per bucket. */
  lemma LanguageSkillsOrdered(langs: seq<LanguageCount>)
    ensures OrderedBelow(LanguageSkills(langs), 6)
  {
    var totalCode := TotalCode(langs);
    var stats := LanguageStatsOf(langs);
    var s0 := JsTsBadge(stats, totalCode);
    var s1 := LanguageBadge(stats.pythonTotal, totalCode, "Python", "bg-blue-400");
    var s2 := LanguageBadge(stats.javaTotal, totalCode, "Java", "bg-red-500");
    var s3 := LanguageBadge(stats.cppTotal, totalCode, "C++", "bg-purple-500");
    var s4 := LanguageBadge(stats.rustTotal, totalCode, "Rust", "bg-orange-500");
    var s5 := LanguageBadge(stats.goTotal, totalCode, "Go", "bg-blue-600");
    JsTsBadgeCategory(stats, totalCode);
    PythonCategories();
    JavaCategories();
    CppCategories();
    RustCategories();
    GoCategories();
    LanguageBadgeCategory(stats.pythonTotal, totalCode, "Python", "bg-blue-400", 1);
    LanguageBadgeCategory(stats.javaTotal, totalCode, "Java", "bg-red-500", 2);
    LanguageBadgeCategory(stats.cppTotal, totalCode, "C++", "bg-purple-500", 3);
    LanguageBadgeCategory(stats.rustTotal, totalCode, "Rust", "bg-orange-500", 4);
    LanguageBadgeCategory(stats.goTotal, totalCode, "Go", "bg-blue-600", 5);
    var acc := s0;
    AppendCategory([], s0, 0);
    assert [] + s0 == s0;
    AppendCategory(acc, s1, 1); acc := acc + s1;
    AppendCategory(acc, s2, 2); acc := acc + s2;
    AppendCategory(acc, s3, 3); acc := acc + s3;
    AppendCategory(acc, s4, 4); acc := acc + s4;
    AppendCategory(acc, s5, 5); acc := acc + s5;
  }

  // ---------------------------------------------------------------------
  // The fixed tiers as value ranges, and their monotonicity

  /** The level of a tier badge within its category: 0 for no badge, 1 for the lowest tier. */
  function Level(s: seq<Skill>): nat {
    if |s| == 0 then 0
    else if s[0].name in {"GitHub Legend", "GitHub Superstar", "Code Machine"} then 3
    else if s[0].name in {"Top Contributor", "GitHub Star", "Community Leader", "Productive Developer",
                          "PR Master", "Ultimate Polyglot", "GitHub Veteran"} then 2
    else 1
  }

  /** A larger count never earns a lower tier. */
  lemma TiersMonotone(a: int, b: int)
    requires a <= b
    ensures Level(ContributionBadge(a)) <= Level(ContributionBadge(b))
    ensures Level(StarBadge(a)) <= Level(StarBadge(b))
    ensures Level(FollowerBadge(a)) <= Level(FollowerBadge(b))
    ensures Level(RepositoryBadge(a)) <= Level(RepositoryBadge(b))
    ensures Level(PullRequestBadge(PullRequestCounts(a, 0, 0))) <= Level(PullRequestBadge(PullRequestCounts(b, 0, 0)))
    ensures a >= 0 ==> Level(PolyglotBadge(a)) <= Level(PolyglotBadge(b))
    ensures Level(AgeTier(Some(a))) <= Level(AgeTier(Some(b)))
  {
    ContributionMonotone(a, b);
    StarMonotone(a, b);
    FollowerMonotone(a, b);
    RepositoryMonotone(a, b);
    PullRequestMonotone(a, b);
    if a >= 0 {
      PolyglotMonotone(a, b);
    }
    AgeMonotone(a, b);
  }

  lemma ContributionMonotone(a: int, b: int)
    requires a <= b
    ensures Level(ContributionBadge(a)) <= Level(ContributionBadge(b))
  {
  }

  lemma StarMonotone(a: int, b: int)
    requires a <= b
    ensures Level(StarBadge(a)) <= Level(StarBadge(b))
  {
  }

  lemma FollowerMonotone(a: int, b: int)
    requires a <= b
    ensures Level(FollowerBadge(a)) <= Level(FollowerBadge(b))
  {
  }

  lemma RepositoryMonotone(a: int, b: int)
    requires a <= b
    ensures Level(RepositoryBadge(a)) <= Level(RepositoryBadge(b))
  {
  }

  lemma PullRequestMonotone(a: int, b: int)
    requires a <= b
    ensures Level(PullRequestBadge(PullRequestCounts(a, 0, 0))) <= Level(PullRequestBadge(PullRequestCounts(b, 0, 0)))
  {
  }

  lemma PolyglotMonotone(a: nat, b: nat)
    requires a <= b
    ensures Level(PolyglotBadge(a)) <= Level(PolyglotBadge(b))
  {
  }

  lemma AgeMonotone(a: int, b: int)
    requires a <= b
    ensures Level(AgeTier(Some(a))) <= Level(AgeTier(Some(b)))
  {
  }

  predicate NonNegativeValues(langs: seq<LanguageCount>) {
    forall i :: 0 <= i < |langs| ==> langs[i].value >= 0
  }

  lemma {:induction false} GroupTotalBounded(langs: seq<LanguageCount>, bucket: int)
    requires NonNegativeValues(langs)
    ensures 0 <= GroupTotal(langs, bucket) <= TotalCode(langs)
  {
    if |langs| > 0 {
      GroupTotalBounded(langs[..|langs| - 1], bucket);
    }
  }

  /** With non-negative values summing to zero, no language badge is awarded. */
  lemma NoLanguageBadgeWithoutCode(langs: seq<LanguageCount>)
    requires NonNegativeValues(langs) && TotalCode(langs) == 0
    ensures LanguageSkills(langs) == []
  {
    LanguageStatsGroups(langs);
    GroupTotalBounded(langs, 1);
    GroupTotalBounded(langs, 2);
    GroupTotalBounded(langs, 3);
    GroupTotalBounded(langs, 4);
    GroupTotalBounded(langs, 5);
    GroupTotalBounded(langs, 6);
  }

  /** The issue counts never influence the badges. */
  lemma IssuesIgnored(p: SkillProps, issues: IssueCounts)
    ensures TopSkills(p.(issues := issues)) == TopSkills(p)
  {
  }

  /**
   * Fed the text that `calculateAccountAge` displays, the age rule awards
   * Veteran from 10 years, Experienced from 5 years, and nothing below.
   */
  lemma AgeBadgeOfAccountAge(a: GithubStats.AccountAge)
    ensures var r := AgeBadge(GithubStats.FormatAccountAge(a));
      && (a.years >= 10 ==> r == [Skill("GitHub Veteran", Clock, "bg-gray-500")])
      && (5 <= a.years < 10 ==> r == [Skill("Experienced Developer", Clock, "bg-gray-400")])
      && (a.years < 5 ==> r == [])
  {
    GithubStats.AccountAgeYearsParse(a);
  }

  /** The component renders `null` when no badge is awarded, and the badge list otherwise. */
  function SkillsSection(p: SkillProps): (r: Option<seq<Skill>>)
    ensures r.None? <==> TopSkills(p) == []
    ensures r.Some? ==> r.value == TopSkills(p) && |r.value| >= 1
  {
    var skills := TopSkills(p);
    if |skills| == 0 then None else Some(skills)
  }

  /** Below every threshold, with no languages, the section is not rendered. */
  lemma NothingRemarkable(p: SkillProps)
    requires p.languages == []
    requires p.contributions <= 1000 && p.stars <= 100 && p.followers <= 100 && p.repositories <= 50
    requires p.pullRequests.open + p.pullRequests.closed + p.pullRequests.merged <= 100
    requires var years := ParseInt(FirstToken(p.accountAge, ' ')); years.None? || years.value < 5
    ensures SkillsSection(p) == None
  {
    NoLanguageBadgeWithoutCode(p.languages);
    NoAgeBadgeBelowFive(p.accountAge);
    NoBadgeBelowThresholds(p);
  }

  lemma NoAgeBadgeBelowFive(accountAge: string)
    requires var years := ParseInt(FirstToken(accountAge, ' ')); years.None? || years.value < 5
    ensures AgeBadge(accountAge) == []
  {
    var years := ParseInt(FirstToken(accountAge, ' '));
    assert AgeBadge(accountAge) == AgeTier(years);
  }

  lemma NoBadgeBelowThresholds(p: SkillProps)
    requires LanguageSkills(p.languages) == [] && |p.languages| < 5 && AgeBadge(p.accountAge) == []
    requires p.contributions <= 1000 && p.stars <= 100 && p.followers <= 100 && p.repositories <= 50
    requires p.pullRequests.open + p.pullRequests.closed + p.pullRequests.merged <= 100
    ensures TopSkills(p) == []
  {
  }
}
