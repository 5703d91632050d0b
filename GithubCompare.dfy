/**
 * The comparison hook of `src/hooks/useGitHubCompare.ts`: the mapping of a
 * failed request to an error record, the statistics gathered for one user
 * from three REST answers, and the loading and error state of a comparison.
 * The answers to the requests are inputs.
 */
module GithubCompare {
  import opened JsText
  import opened Repos

  datatype GitHubError = GitHubError(message: string, status: int)

  /** What the `catch` receives: an object carrying an HTTP status, or any other failure. */
  datatype Thrown = StatusError(status: int) | OtherError

  const NotFoundMessage := "User not found"
  const RateLimitMessage := "API rate limit exceeded"
  const GenericMessage := "Failed to fetch data from GitHub"

  /** `handleGitHubError` */
  function HandleGitHubError(err: Thrown): (e: GitHubError)
    ensures e.status == 404 || e.status == 403 || e.status == 500
    ensures e.status == 404 <==> err == StatusError(404)
    ensures e.status == 403 <==> err == StatusError(403)
    ensures e.message == (if e.status == 404 then NotFoundMessage
                          else if e.status == 403 then RateLimitMessage
                          else GenericMessage)
  {
    if err.StatusError? && err.status == 404 then GitHubError(NotFoundMessage, 404)
    else if err.StatusError? && err.status == 403 then GitHubError(RateLimitMessage, 403)
    else GitHubError(GenericMessage, 500)
  }

  // ---------------------------------------------------------------------
  // fetchUserStats

  /**
   * An awaited `fetch`: a response with its HTTP status and the result of
   * `.json()` (None when the body does not parse), or a rejected request.
   */
  datatype Response<T> = Response(status: int, json: Option<T>) | Rejected

  /** `response.ok`: a status in the range 200 to 299. */
  predicate Ok<T>(r: Response<T>) {
    r.Response? && 200 <= r.status <= 299
  }

  predicate Delivered<T>(r: Response<T>) {
    Ok(r) && r.json.Some?
  }

  /** What a request that did not deliver throws: its status when the response was not ok. */
  function Failure<T>(r: Response<T>): Thrown {
    if r.Response? && !Ok(r) then StatusError(r.status) else OtherError
  }

  /** The fields of `/users/{username}` the statistics use. */
  datatype UserData = UserData(
    login: string, avatarUrl: string, publicRepos: int, followers: int, following: int,
    createdAt: string, bio: Option<string>, location: Option<string>, company: Option<string>)

  datatype Event = Event(eventType: string)

  datatype UserStats = UserStats(
    username: string, avatarUrl: string, contributions: int, repositories: int, stars: int,
    followers: int, following: int, languages: seq<LanguageCount>, createdAt: string,
    bio: string, location: string, company: string)

  datatype Outcome<T> = Success(value: T) | Failed(error: GitHubError)

  /** `value || ''` */
  function OrEmpty(o: Option<string>): (r: string)
    ensures Truthy(o) ==> r == o.value
    ensures !Truthy(o) ==> r == ""
  {
    if Truthy(o) then o.value else ""
  }

  /** The record built from the three answers once all of them have been delivered. */
  function UserStatsOf(user: UserData, repos: seq<Repo>, events: seq<Event>): UserStats {
    UserStats(user.login, user.avatarUrl, |events|, user.publicRepos, SumStars(repos),
              user.followers, user.following, LanguageCounts(repos), user.createdAt,
              OrEmpty(user.bio), OrEmpty(user.location), OrEmpty(user.company))
  }

  /**
   * The outcome of `fetchUserStats`: the requests are made in the order user,
   * repositories, events, and the first that does not deliver decides the
   * error.
   */
  function FetchOutcome(user: Response<UserData>, repos: Response<seq<Repo>>,
                        events: Response<seq<Event>>): Outcome<UserStats> {
    if !Delivered(user) then Failed(HandleGitHubError(Failure(user)))
    else if !Delivered(repos) then Failed(HandleGitHubError(Failure(repos)))
    else if !Delivered(events) then Failed(HandleGitHubError(Failure(events)))
    else Success(UserStatsOf(user.json.value, repos.json.value, events.json.value))
  }

  /** `fetchUserStats`, with the star `reduce` and the language loop. */
  method FetchUserStats(user: Response<UserData>, repos: Response<seq<Repo>>,
                        events: Response<seq<Event>>) returns (r: Outcome<UserStats>)
    ensures r == FetchOutcome(user, repos, events)
  {
    if !Delivered(user) {
      return Failed(HandleGitHubError(Failure(user)));
    }
    var userData := user.json.value;
    if !Delivered(repos) {
      return Failed(HandleGitHubError(Failure(repos)));
    }
    var reposData := repos.json.value;
    var totalStars := SumStars(reposData);
    if !Delivered(events) {
      return Failed(HandleGitHubError(Failure(events)));
    }
    var contributions := |events.json.value|;
    var languages: seq<LanguageCount> := [];
    for i := 0 to |reposData|
      invariant languages == LanguageCounts(reposData[..i])
    {
      assert reposData[..i + 1][..i] == reposData[..i];
      var repo := reposData[i];
      if HasLanguage(repo) {
        languages := Increment(languages, repo.language.value);
      }
    }
    assert reposData[..|reposData|] == reposData;
    r := Success(UserStats(userData.login, userData.avatarUrl, contributions, userData.publicRepos,
                           totalStars, userData.followers, userData.following, languages,
                           userData.createdAt, OrEmpty(userData.bio), OrEmpty(userData.location),
                           OrEmpty(userData.company)));
  }

  /**
   * A user's statistics are produced exactly when all three requests deliver;
   * otherwise the error is the mapped record of the first request that did
   * not, with a status of 403, 404 or 500.
   */
  lemma FetchOutcomeCases(user: Response<UserData>, repos: Response<seq<Repo>>, events: Response<seq<Event>>)
    ensures var r := FetchOutcome(user, repos, events);
      && (r.Success? <==> Delivered(user) && Delivered(repos) && Delivered(events))
      && (!Delivered(user) ==> r == Failed(HandleGitHubError(Failure(user))))
      && (Delivered(user) && !Delivered(repos) ==> r == Failed(HandleGitHubError(Failure(repos))))
      && (Delivered(user) && Delivered(repos) && !Delivered(events) ==> r == Failed(HandleGitHubError(Failure(events))))
      && (r.Failed? ==> r.error.status == 403 || r.error.status == 404 || r.error.status == 500)
  {
  }

  /** A missing user answers 404, which becomes the "User not found" record. */
  lemma UnknownUser(repos: Response<seq<Repo>>, events: Response<seq<Event>>, json: Option<UserData>)
    ensures FetchOutcome(Response(404, json), repos, events) == Failed(GitHubError(NotFoundMessage, 404))
  {
  }

  /**
   * The statistics: stars are the sum over every repository, contributions
   * the number of events, each language count is the number of repositories
   * with that language and all counts together are at most the number of
   * repositories; missing texts become "".
   */
  lemma UserStatsOfSpec(user: UserData, repos: seq<Repo>, events: seq<Event>)
    ensures var s := UserStatsOf(user, repos, events);
      && s.stars == SumStars(repos)
      && s.contributions == |events|
      && (forall e :: e in s.languages ==> e.value == CountOf(repos, e.name) >= 1)
      && SumValues(s.languages) == WithLanguageCount(repos) <= |repos|
      && (user.bio.None? ==> s.bio == "")
      && (user.location.None? ==> s.location == "")
      && (user.company.None? ==> s.company == "")
  {
    LanguageCountsEntries(repos);
    LanguageCountsSum(repos);
  }

  // ---------------------------------------------------------------------
  // compareUsers

  /** The three answers for one username. */
  datatype UserResponses = UserResponses(
    user: Response<UserData>, repos: Response<seq<Repo>>, events: Response<seq<Event>>)

  /** `usernames.map(fetchUserStats)`, each promise taken with its outcome. */
  function Outcomes(requests: seq<UserResponses>): (r: seq<Outcome<UserStats>>)
    ensures |r| == |requests|
  {
    if |requests| == 0 then []
    else
      var last := requests[|requests| - 1];
      Outcomes(requests[..|requests| - 1]) + [FetchOutcome(last.user, last.repos, last.events)]
  }

  /** The `i`-th outcome is that of the `i`-th username. */
  lemma {:induction false} OutcomesAt(requests: seq<UserResponses>, i: nat)
    requires i < |requests|
    ensures Outcomes(requests)[i] == FetchOutcome(requests[i].user, requests[i].repos, requests[i].events)
  {
    var prefix := requests[..|requests| - 1];
    if i < |requests| - 1 {
      OutcomesAt(prefix, i);
      assert prefix[i] == requests[i];
    }
  }

  /** Starts every user's requests, in list order. */
  method FetchAll(requests: seq<UserResponses>) returns (outcomes: seq<Outcome<UserStats>>)
    ensures outcomes == Outcomes(requests)
  {
    outcomes := [];
    for i := 0 to |requests|
      invariant outcomes == Outcomes(requests[..i])
    {
      assert requests[..i + 1][..i] == requests[..i];
      var o := FetchUserStats(requests[i].user, requests[i].repos, requests[i].events);
      outcomes := outcomes + [o];
    }
    assert requests[..|requests|] == requests;
  }

  /**
   * `Promise.all` over the per-user outcomes, taken in list order: all the
   * statistics when every user succeeds, otherwise the first failure.
   */
  function AllOutcomes(outcomes: seq<Outcome<UserStats>>): Outcome<seq<UserStats>> {
    if |outcomes| == 0 then Success([])
    else
      match outcomes[0]
      case Failed(e) => Failed(e)
      case Success(v) =>
        match AllOutcomes(outcomes[1..])
        case Failed(e) => Failed(e)
        case Success(vs) => Success([v] + vs)
  }

  lemma {:induction false} AllOutcomesSpec(outcomes: seq<Outcome<UserStats>>)
    ensures var r := AllOutcomes(outcomes);
      && (r.Success? <==> forall i :: 0 <= i < |outcomes| ==> outcomes[i].Success?)
      && (r.Success? ==>
            |r.value| == |outcomes| && forall i :: 0 <= i < |outcomes| ==> r.value[i] == outcomes[i].value)
      && (r.Failed? ==> exists i :: 0 <= i < |outcomes| && outcomes[i] == Failed(r.error)
                                   && forall j :: 0 <= j < i ==> outcomes[j].Success?)
  {
    if |outcomes| > 0 {
      var rest := outcomes[1..];
      AllOutcomesSpec(rest);
      var r := AllOutcomes(outcomes);
      assert forall i :: 1 <= i < |outcomes| ==> outcomes[i] == rest[i - 1];
      if r.Failed? && outcomes[0].Success? {
        var i :| 0 <= i < |rest| && rest[i] == Failed(r.error) && forall j :: 0 <= j < i ==> rest[j].Success?;
        assert outcomes[i + 1] == Failed(r.error);
      }
      if r.Failed? && outcomes[0].Failed? {
        assert outcomes[0] == Failed(r.error);
      }
    }
  }

  /** The `loading` and `error` state of the hook. */
  class CompareSession {
    var loading: bool
    var error: Option<string>

    constructor()
      ensures !loading && error == None
    {
      loading := false;
      error := None;
    }

    /**
     * `compareUsers`: loading is set, the error cleared, every user fetched;
     * on failure the error holds the mapped message (and the error is passed
     * on to the caller); loading is cleared in the end either way.
     */
    method CompareUsers(requests: seq<UserResponses>) returns (r: Outcome<seq<UserStats>>)
      modifies this
      ensures r == AllOutcomes(Outcomes(requests))
      ensures !loading
      ensures error == (if r.Failed? then Some(r.error.message) else None)
    {
      loading := true;
      error := None;
      var outcomes := FetchAll(requests);
      r := AllOutcomes(outcomes);
      if r.Failed? {
        error := Some(r.error.message);
      }
      loading := false;
    }
  }
}
