# GitHub dashboard core, modelled in Dafny

This project models the logic behind a React dashboard over the GitHub API
(repository Tiavina22/dash). That logic is the data transformations and small
state machines that sit between the network answers and the screen:

- **Dashboard hook** (`GithubStats`): the account age; the count of a user's
  repositories per primary language; the star and fork totals; the six
  most-used languages; the contribution totals; and the hook state that
  `fetchGitHubData` updates.
- **Skill badges** (`SkillBadges`): the rule table of `getTopSkills`. It
  covers the language buckets and their share test, the fixed tiers for
  contributions, stars, followers, repositories and pull requests, the
  polyglot rule and the account-age rule.
- **Comparison** (`GithubCompare`, `ComparisonStats`, `ProfileComparison`):
  - the mapping of failed requests to error records;
  - the per-user statistics;
  - the loading and error state of a comparison;
  - the language percentage table;
  - the username list of the comparison form.
- **Developers of Madagascar** (`MadagascarDevsHook`, `MadagascarDevs`): the
  paginated loader with its name fallback, the case-insensitive search, the
  view selection and the dashboard links.
- **Language menu** (`LanguageSelector`): the initial interface language, the
  stored preference and the open/closed menu.

Shared helpers:

- `JsText` holds the JavaScript string operations the core relies on, with
  their ECMAScript behaviour: ASCII `toLowerCase`, `includes`, `trim`,
  `split(sep)[0]`, `${n}` for integers, and `parseInt` without a radix.
- `Repos` holds the per-language count. The code uses a JavaScript object as
  a dictionary; it is modelled as an association list in insertion order,
  which is the order `Object.entries` returns.
- `Sorting` holds the stable descending sort followed by `slice`.
- `Lists` holds `filter`.

Every answer from the network is a parameter: the REST and GraphQL bodies, a
failed request and the HTTP status. The browser language tag is a parameter
too. Classes stand for the hooks and components whose fields change
(`Dashboard`, `CompareSession`, `ComparisonForm`, `DevelopersLoader`,
`LanguageMenu`). Their methods state the whole new state.

Floating-point arithmetic is replaced by exact integer arithmetic, in two
places:

- **Badge share test.** The test `(total / totalCode) * 100 > p` is decided by
  cross-multiplication. `SkillBadges.ShareAboveIsDivision` proves this is the
  same as the test on real numbers, and a zero denominator is treated as
  Infinity or NaN.
- **Percentage table.** `toFixed(1)` becomes a whole number of tenths: the
  exact quotient, with a half rounded up.

## Model

| member | source | states |
|---|---|---|
| JsText.ToLower | src/components/SkillBadges.tsx:54 | same length; each character is mapped to lower case if it is an ASCII capital and kept otherwise |
| JsText.IncludesIffOccurs | src/pages/MadagascarDevs.tsx:33-34 | `includes` holds exactly when the search string occurs at some position |
| JsText.TrimEmptyIffBlank | src/components/ProfileComparison.tsx:19 | `trim()` gives "" exactly when every character is ECMAScript white space |
| JsText.FirstToken | src/components/SkillBadges.tsx:223 | `split(sep)[0]` is a prefix of the text, holds no separator, and is followed by a separator unless it is the whole text |
| JsText.FirstTokenOfConcat | src/components/LanguageSelector.tsx:14 | the first token of `a + sep…` is `a` when `a` holds no separator |
| JsText.ParseIntOfIntToString | src/components/SkillBadges.tsx:223 | `parseInt` of the rendering of any integer, negatives included, gives that integer back |
| Repos.IndexOf | src/hooks/useGithub.ts:92 | the dictionary lookup finds the entry with that key, or reports that no entry has it |
| Repos.LanguageCountsDistinct | src/hooks/useGithub.ts:85-93 | the dictionary never holds a key twice |
| Repos.LanguageCountsValues | src/hooks/useGithub.ts:91-93 | a language has an entry iff some repository has it as its language; the entry equals the number of such repositories |
| Repos.LanguageCountsEntries | src/hooks/useGithub.ts:85-93 | every entry holds a count of at least 1 that matches its language |
| Repos.LanguageCountsSum | src/hooks/useGithub.ts:89-97 | the counts add up to the number of repositories with a language, which is at most the number of repositories |
| Repos.AggregationOrderIndependent | src/hooks/useGithub.ts:85-97 | for two permutations of the same repositories: equal star and fork totals, equal per-language counts and the same dictionary entries |
| Sorting.Insert | src/hooks/useGithub.ts:101 | insertion adds exactly that one element to the multiset |
| Sorting.InsertSorted | src/hooks/useGithub.ts:101 | insertion keeps a list sorted by non-increasing key |
| Sorting.SortDesc | src/hooks/useGithub.ts:101 | `sort((a, b) => key(b) - key(a))` returns a permutation with keys in non-increasing order |
| Sorting.SortDescStable | src/hooks/useGithub.ts:101 | elements with equal keys keep their relative order (a stable sort) |
| Sorting.Take | src/hooks/useGithub.ts:102 | `slice(0, n)` is the prefix of length min(n, length) |
| Sorting.TopSpec | src/hooks/useGithub.ts:99-102 | sort then slice keeps min(n, length) elements of the input, sorted, and no dropped element has a larger key than a kept one |
| GithubStats.CalculateAccountAge | src/hooks/useGithub.ts:20-29 | years·12 + months equals the month difference; the month lies in 0..11 when both month numbers do |
| GithubStats.AccountAgeYearsParse | src/hooks/useGithub.ts:26-28 | the first word of the text "Y ans M mois" parses back to Y |
| GithubStats.AggregateRepos | src/hooks/useGithub.ts:85-102 | the loop yields the top six of the per-language counts and the exact star and fork sums over all repositories |
| GithubStats.TopLanguagesOfRepos | src/hooks/useGithub.ts:99-102 | at most six entries, sorted by non-increasing count; each is a dictionary entry holding its language's true count; no dropped language is used more than a kept one |
| GithubStats.TopLanguagesTieOrder | src/hooks/useGithub.ts:99-102 | the kept list does depend on the order: a Go and a Rust repository give [Go, Rust] in one order and [Rust, Go] in the other |
| GithubStats.WithContributions | src/hooks/useGithub.ts:53-63 | total = commits + restricted; last year = commits; the streaks are unchanged; with non-negative restricted contributions, last year ≤ total |
| GithubStats.Dashboard.constructor | src/hooks/useGithub.ts:7-18 | the initial state, with both streaks at 0 |
| GithubStats.Dashboard.SetUsername | src/hooks/useGithub.ts:7 | only the username changes |
| GithubStats.Dashboard.FetchGitHubData | src/hooks/useGithub.ts:69-112 | the request steps and the aggregation loop leave exactly the state `AfterFetch` gives for the old state and the three answers |
| GithubStats.AfterFetchSpec | src/hooks/useGithub.ts:69-112 | with a username: the same username, loading over; the error message iff the user or repository request failed, "" otherwise; the user stored once its request succeeds; languages and repository figures replaced only when both requests succeed, with at most six languages and the exact sums; the streaks unchanged |
| GithubStats.AfterFetchWithoutUsername | src/hooks/useGithub.ts:70 | without a username the state is unchanged |
| SkillBadges.SumLanguageValues | src/components/SkillBadges.tsx:50 | the loop computes the sum of the entries' values |
| SkillBadges.ReduceLanguageStats | src/components/SkillBadges.tsx:53-78 | the loop computes the reduce, whose buckets `LanguageStatsGroups` describes |
| SkillBadges.BucketNames | src/components/SkillBadges.tsx:54-68 | the names feeding each bucket: typescript or javascript, python, java, c++ or cpp, rust, go |
| SkillBadges.AccumulateStep | src/components/SkillBadges.tsx:53-69 | one reduce step adds the entry's value to its bucket only, and sets the TypeScript flag for a typescript entry |
| SkillBadges.LanguageStatsGroups | src/components/SkillBadges.tsx:53-78 | each bucket is the total of the entries whose lower-cased name belongs to it; the flag is set iff some entry is typescript |
| SkillBadges.ShareAboveIsDivision | src/components/SkillBadges.tsx:82-83 | the cross-multiplied test equals `(total / totalCode) * 100 > p` on real numbers |
| SkillBadges.LanguageBadgeByShare | src/components/SkillBadges.tsx:81-96 | Expert iff the share is above 40%, Developer iff it is above 20% and at most 40%, otherwise nothing; with zero code, Expert iff the total is positive |
| SkillBadges.LanguageBadge | src/components/SkillBadges.tsx:81-96 | at most one badge per language, with the code icon, the given colour and the name followed by " Expert" or " Developer" |
| SkillBadges.JsTsBadge | src/components/SkillBadges.tsx:98-105 | at most one badge, and none unless the merged bucket is positive; the badge is labelled TypeScript (blue) iff the TypeScript flag is set, JavaScript (yellow) otherwise |
| SkillBadges.ContributionBadge | src/components/SkillBadges.tsx:114-132 | at most one badge; Legend iff more than 10000 contributions, Top Contributor iff 5001..10000, Active Contributor iff 1001..5000, none iff at most 1000 |
| SkillBadges.StarBadge | src/components/SkillBadges.tsx:135-153 | at most one badge; Superstar iff more than 5000 stars, Star iff 1001..5000, Star Collector iff 101..1000, none iff at most 100 |
| SkillBadges.FollowerBadge | src/components/SkillBadges.tsx:156-168 | at most one badge; Community Leader iff more than 1000 followers, Popular Developer iff 101..1000, none iff at most 100 |
| SkillBadges.RepositoryBadge | src/components/SkillBadges.tsx:171-189 | at most one badge; Code Machine iff more than 200 repositories, Productive iff 101..200, Active iff 51..100, none iff at most 50 |
| SkillBadges.PullRequestBadge | src/components/SkillBadges.tsx:192-205 | at most one badge; on the sum open + closed + merged: PR Master iff above 500, PR Expert iff 101..500, none iff at most 100 |
| SkillBadges.PolyglotBadge | src/components/SkillBadges.tsx:208-220 | at most one badge; Ultimate Polyglot iff at least 10 language entries, Polyglot Developer iff 5..9, none below 5 |
| SkillBadges.AgeBadge | src/components/SkillBadges.tsx:223-236 | at most one age badge |
| SkillBadges.AgeTier | src/components/SkillBadges.tsx:223-236 | at most one age badge; Veteran iff the parsed years are at least 10, Experienced iff 5..9, none below 5 or when the text is not a number |
| SkillBadges.TiersMonotone | src/components/SkillBadges.tsx:114-236 | for every tier rule, a larger count never earns a lower tier |
| SkillBadges.TopSkills | src/components/SkillBadges.tsx:48-239 | at most 13 badges |
| SkillBadges.GetTopSkills | src/components/SkillBadges.tsx:48-239 | the two reduce loops and the pushes produce exactly the rule table's badges |
| SkillBadges.LanguageSkillsOrdered | src/components/SkillBadges.tsx:98-111 | the language badges come in bucket order, at most one per bucket |
| SkillBadges.TopSkillsOrdered | src/components/SkillBadges.tsx:98-238 | the badges follow the fixed category order: JS/TS, Python, Java, C++, Rust, Go, contributions, stars, followers, repositories, PRs, polyglot, age; at most one badge per category |
| SkillBadges.NoLanguageBadgeWithoutCode | src/components/SkillBadges.tsx:50 | non-negative values summing to 0 give no language badge |
| SkillBadges.IssuesIgnored | src/components/SkillBadges.tsx:36-45 | the issue counts never change the badges |
| SkillBadges.AgeBadgeOfAccountAge | src/components/SkillBadges.tsx:223-236 | on the dashboard's account-age text: Veteran from 10 years, Experienced from 5 to 9, nothing below 5 |
| SkillBadges.SkillsSection | src/components/SkillBadges.tsx:241-243 | the section is not rendered iff no badge is awarded |
| SkillBadges.NothingRemarkable | src/components/SkillBadges.tsx:114-243 | below every threshold, with no languages, nothing is rendered |
| ComparisonStats.PercentageOf | src/components/ComparisonStats.tsx:35 | NaN iff the total is 0; otherwise the nearest tenth to 1000·count/total, within half a tenth, at most 100.0% |
| ComparisonStats.CalculateLanguagePercentages | src/components/ComparisonStats.tsx:31-37 | one entry per language, in order, with the same name and its share of the total |
| ComparisonStats.PercentagesAddUp | src/components/ComparisonStats.tsx:32-36 | the shares add up to 100.0% within half a tenth per language |
| ComparisonStats.FormatPercentageRoundTrip | src/components/ComparisonStats.tsx:124 | the text `toFixed(1)` writes reads back to its number of tenths, so sorting by `parseFloat` sorts by tenths |
| ComparisonStats.DisplayedLanguagesSpec | src/components/ComparisonStats.tsx:123-126 | at most 5 languages, by non-increasing share, each one from the input with its share; none hidden ranks above one shown; empty input shows nothing |
| GithubCompare.HandleGitHubError | src/hooks/useGitHubCompare.ts:27-35 | the status is 403, 404 or 500; 404 and 403 are passed through exactly when they were thrown; the message matches the status |
| GithubCompare.OrEmpty | src/hooks/useGitHubCompare.ts:82-84 | a missing or empty text becomes "" |
| GithubCompare.FetchUserStats | src/hooks/useGitHubCompare.ts:37-90 | the star sum and the language loop yield the outcome that `FetchOutcome` specifies |
| GithubCompare.FetchOutcomeCases | src/hooks/useGitHubCompare.ts:37-90 | success iff all three requests deliver; otherwise the error is the mapped record of the first failure, in request order, with status 403, 404 or 500 |
| GithubCompare.UnknownUser | src/hooks/useGitHubCompare.ts:28-43 | a 404 on the user request gives ("User not found", 404) |
| GithubCompare.UserStatsOfSpec | src/hooks/useGitHubCompare.ts:54-84 | stars = sum of the repositories' stars; contributions = number of events; each count is its language's number of repositories; the counts add up to at most the number of repositories; missing texts become "" |
| GithubCompare.Outcomes | src/hooks/useGitHubCompare.ts:96-98 | one outcome per username |
| GithubCompare.OutcomesAt | src/hooks/useGitHubCompare.ts:96-98 | the i-th outcome comes from the i-th username's requests |
| GithubCompare.FetchAll | src/hooks/useGitHubCompare.ts:96-98 | the loop makes every user's requests, in list order |
| GithubCompare.AllOutcomesSpec | src/hooks/useGitHubCompare.ts:96-98 | `Promise.all` succeeds iff every user does, with all the statistics in order; otherwise it fails with the first failure |
| GithubCompare.CompareSession.constructor | src/hooks/useGitHubCompare.ts:24-25 | not loading, no error |
| GithubCompare.CompareSession.CompareUsers | src/hooks/useGitHubCompare.ts:92-107 | the result is `Promise.all` of the users' outcomes; loading ends false; the error holds the failure's message, or is null on success |
| Lists.Filter | src/pages/MadagascarDevs.tsx:32-35 | every kept element is in the input and satisfies the predicate; every input element that satisfies it is kept |
| Lists.FilterMultiplicity | src/pages/MadagascarDevs.tsx:32-35 | an element that satisfies the predicate is kept as many times as it occurs; any other element is dropped |
| Lists.FilterAtLeastTwo | src/components/ProfileComparison.tsx:19-21 | at least two elements are kept iff two different positions satisfy the predicate |
| Lists.FilterIsSubsequence | src/pages/MadagascarDevs.tsx:32-35 | the result is an order-preserving subsequence of the input |
| ProfileComparison.ValidUsernamesSpec | src/components/ProfileComparison.tsx:19 | the entries passed on are the non-blank entries, untrimmed and in their original order, each as many times as it occurs |
| ProfileComparison.WithoutIndexSpec | src/components/ProfileComparison.tsx:43 | filtering by position deletes exactly that position, or nothing for a position out of range |
| ProfileComparison.ComparisonForm.constructor | src/components/ProfileComparison.tsx:10 | the list starts as two empty strings |
| ProfileComparison.ComparisonForm.ChangeUsername | src/components/ProfileComparison.tsx:12-16 | only position `index` changes; the length and every other entry are unchanged |
| ProfileComparison.ComparisonForm.AddProfile | src/components/ProfileComparison.tsx:55 | one empty string is appended |
| ProfileComparison.ComparisonForm.RemoveProfile | src/components/ProfileComparison.tsx:40-49 | exactly that position is deleted, the rest keep their order, and the list keeps at least two entries |
| ProfileComparison.AtLeastTwoValid | src/components/ProfileComparison.tsx:19-21 | at least two entries are passed on iff two different positions hold non-blank entries |
| ProfileComparison.ComparisonForm.HandleCompare | src/components/ProfileComparison.tsx:18-23 | `onCompare` is called iff two different positions hold non-blank entries, and then with exactly the non-blank entries |
| ProfileComparison.FreshFormSubmitsNothing | src/components/ProfileComparison.tsx:10-23 | the initial two empty fields yield no valid username |
| MadagascarDevs.FilterDevelopersSpec | src/pages/MadagascarDevs.tsx:32-35 | a developer is shown iff it matches, as many times as it was loaded and in loading order; filtering twice equals filtering once |
| MadagascarDevs.EmptySearchKeepsAll | src/pages/MadagascarDevs.tsx:32-35 | an empty query shows every developer |
| MadagascarDevs.SearchIgnoresCase | src/pages/MadagascarDevs.tsx:32-35 | the query's case does not matter |
| MadagascarDevs.SelectView | src/pages/MadagascarDevs.tsx:37-38 | loading view iff loading with no developer yet; otherwise the error view iff there is an error; otherwise the filtered list |
| MadagascarDevs.LoadingMoreKeepsList | src/pages/MadagascarDevs.tsx:37 | while a further page loads, the developers already loaded stay on screen |
| MadagascarDevs.ShareUrl | src/pages/MadagascarDevs.tsx:22 | the shared address is the origin followed by the profile route |
| MadagascarDevs.ProfilePathRoundTrip | src/pages/MadagascarDevs.tsx:17-22 | both links carry the developer's username after `/dashboard?username=` |
| MadagascarDevsHook.DeveloperOf | src/hooks/useMadagascarDevs.ts:46-54 | the username is the login; the name is the profile name when it is truthy, otherwise the login; it is non-empty whenever the login is |
| MadagascarDevsHook.DevelopersOf | src/hooks/useMadagascarDevs.ts:39-56 | one developer per user of the page, in order |
| MadagascarDevsHook.DevelopersLoader.constructor | src/hooks/useMadagascarDevs.ts:10-14 | empty list, loading, no error, page 1, more to load |
| MadagascarDevsHook.DevelopersLoader.FetchDevs | src/hooks/useMadagascarDevs.ts:16-65 | an empty page ends the pagination; a full page appends its developers in order; a failure sets the message and keeps the list; loading ends false |
| MadagascarDevsHook.DevelopersLoader.FetchMoreDevs | src/hooks/useMadagascarDevs.ts:71-75 | the page grows by exactly 1 while there is more to load; nothing else changes |
| MadagascarDevsHook.DevelopersLoader.LoadMore | src/hooks/useMadagascarDevs.ts:67-75 | the button and the effect on `page` load the next page: a full page appends its developers and clears the error, an empty one ends the pagination and clears the error, a failure sets the message and keeps the list; loading ends false; nothing at all changes once the pagination has ended |
| LanguageSelector.GetItem | src/components/LanguageSelector.tsx:10 | `localStorage.getItem` returns null for a missing key |
| LanguageSelector.InitialLanguage | src/components/LanguageSelector.tsx:9-19 | a truthy saved preference wins; otherwise the tag's prefix before '-' if it is fr or en; otherwise the current language |
| LanguageSelector.RegionalTag | src/components/LanguageSelector.tsx:14-17 | fr-FR selects fr, en-US selects en, de-DE changes nothing |
| LanguageSelector.PreferenceWinsOnReload | src/components/LanguageSelector.tsx:10-23 | a language stored by `changeLanguage` is the one chosen on the next first render |
| LanguageSelector.LanguageMenu.constructor | src/components/LanguageSelector.tsx:6 | the menu starts closed |
| LanguageSelector.LanguageMenu.DetectLanguage | src/components/LanguageSelector.tsx:9-19 | the effect sets the language that `InitialLanguage` resolves and touches nothing else |
| LanguageSelector.LanguageMenu.ChangeLanguage | src/components/LanguageSelector.tsx:21-25 | sets the language, stores it under `preferredLanguage`, closes the menu |
| LanguageSelector.LanguageMenu.ToggleClick | src/components/LanguageSelector.tsx:35 | a click toggles the menu |
| LanguageSelector.LanguageMenu.ToggleKeyDown | src/components/LanguageSelector.tsx:36-39 | Escape closes; Enter or space toggles; other keys do nothing |
| LanguageSelector.LanguageMenu.ItemClick | src/components/LanguageSelector.tsx:73 | a click on an entry changes the language to that entry |
| LanguageSelector.LanguageMenu.ItemKeyDown | src/components/LanguageSelector.tsx:74-78 | Enter or space on an entry does what a click does; other keys do nothing |

## Left out

- Network I/O (axios, `fetch`, the GraphQL client, the search API): every
  answer, failure and HTTP status is an input.
- Request parameters: the model does not carry the page number that
  `fetchDevs` sends, nor the token headers or URLs.
- Concurrency order: the `Promise.all` of `useGithub.ts` has no real
  concurrency, so it is the sequential loop it amounts to.
- MadagascarDevsHook.DevelopersLoader.LoadMore: each load is atomic and
  pages are appended in page order. The "Charger plus" button stays enabled
  while a page loads, so two clicks can start two overlapping requests whose
  users are appended in the order the answers arrive; the model does not
  capture that interleaving.
- Order independence of the top-language list: it does not hold. The counts
  and totals are independent of the repository order
  (`Repos.AggregationOrderIndependent`), but languages with equal counts
  keep the order of their first repository, so a reordering can reorder the
  list, and at the six-entry cut it can change which languages are kept
  (`GithubStats.TopLanguagesTieOrder`).
- CompareSession.CompareUsers: when several users fail, the model reports the
  first failing user in list order. At run time it is the first request to
  fail in time, and the model has no clock.
- Outcomes: its contract states only the length. The per-index fact is proved
  separately as `OutcomesAt`.
- Object keys: the model ignores that integer-like keys are listed first by
  `Object.entries`, and ignores prototype keys such as `__proto__`. Language
  names are never integer-like.
- Floating point, in three places:
  - **Badge share test.** It is decided exactly by cross-multiplication.
  - **`toFixed(1)`.** Rounding applies to the exact quotient, so a binary
    value that lies just below a half may round differently.
  - **`parseFloat` of the percentage text.** It is read back as tenths.
- ComparisonStats.PercentageOf: requires 0 ≤ count ≤ total. The component
  applies the formula to any numbers, but its dictionaries only ever hold
  counts of at least 1 (`Repos.LanguageCountsEntries`).
- Unicode case mapping: `toLowerCase` is modelled on ASCII letters only.
- Dates: `new Date`, `getFullYear`/`getMonth` and `toLocaleDateString` are
  out; the account age takes year and month numbers.
- Contribution streaks, weekday and month totals: no code computes them. The
  model only proves that the streaks stay at their initial 0.
- Not modelled at all:
  - JSX, styling, animation, translations (`t(...)`) and icons beyond a tag;
  - the clipboard, `setTimeout` and the "copied" toast;
  - image export;
  - the PayPal script;
  - `DevelopersInMadagascar.tsx`;
  - the static developer list.
- Native button behaviour: browsers also turn Enter or space on a `<button>`
  into a click. The model treats the key handler and the click handler as
  separate events.
- GithubStats.Dashboard.FetchGitHubData: the intermediate `loading = true`
  state between the awaits is not observable in the model, only its final
  value.
- The GraphQL query that supplies the contribution counts is not modelled.
  Its answer, or its failure (which is only logged), is an input.
