/**
 * The page of `src/pages/MadagascarDevs.tsx`: the case-insensitive search
 * over the loaded developers, the choice between the loading text, the error
 * text and the list, and the links to a developer's dashboard.
 */
module MadagascarDevs {
  import opened JsText
  import Lists
  import opened MadagascarDevsHook

  /** The lower-cased username or the lower-cased name contains the lower-cased query. */
  predicate Matches(dev: Developer, search: string) {
    Includes(ToLower(dev.username), ToLower(search)) || Includes(ToLower(dev.name), ToLower(search))
  }

  function FilterDevelopers(developers: seq<Developer>, search: string): seq<Developer> {
    Lists.Filter(developers, dev => Matches(dev, search))
  }

  /**
   * The result keeps the matching developers and only those, in the order
   * they were loaded; filtering it again with the same query changes nothing.
   */
  lemma FilterDevelopersSpec(developers: seq<Developer>, search: string)
    ensures var shown := FilterDevelopers(developers, search);
      && Lists.IsSubsequence(shown, developers)
      && (forall i :: 0 <= i < |shown| ==> shown[i] in developers && Matches(shown[i], search))
      && (forall i :: 0 <= i < |developers| && Matches(developers[i], search) ==> developers[i] in shown)
      && (forall d :: multiset(shown)[d] == (if Matches(d, search) then multiset(developers)[d] else 0))
      && FilterDevelopers(shown, search) == shown
  {
    var keep := dev => Matches(dev, search);
    Lists.FilterIsSubsequence(developers, keep);
    Lists.FilterIdempotent(developers, keep);
    FilterDevelopersCounts(developers, search);
  }

  lemma FilterDevelopersCounts(developers: seq<Developer>, search: string)
    ensures forall d :: multiset(FilterDevelopers(developers, search))[d]
                     == (if Matches(d, search) then multiset(developers)[d] else 0)
  {
    Lists.FilterMultiplicity(developers, dev => Matches(dev, search));
  }

  lemma {:induction false} IncludesEmpty(s: string)
    ensures Includes(s, "")
  {
    assert StartsWith(s, "");
  }

  /** An empty query shows every developer. */
  lemma EmptySearchKeepsAll(developers: seq<Developer>)
    ensures FilterDevelopers(developers, "") == developers
  {
    forall i | 0 <= i < |developers| ensures Matches(developers[i], "") {
      IncludesEmpty(ToLower(developers[i].username));
    }
    Lists.FilterKeepsAll(developers, dev => Matches(dev, ""));
  }

  /** The query's case does not matter. */
  lemma SearchIgnoresCase(developers: seq<Developer>, search: string)
    ensures FilterDevelopers(developers, ToLower(search)) == FilterDevelopers(developers, search)
  {
    ToLowerIdempotent(search);
    Lists.FilterAgreeing(developers, dev => Matches(dev, ToLower(search)), dev => Matches(dev, search));
  }

  // ---------------------------------------------------------------------
  // What the page shows

  datatype View = LoadingView | ErrorView(message: string) | ListView(shown: seq<Developer>)

  function SelectView(developers: seq<Developer>, loading: bool, error: string, search: string): (v: View)
    ensures v.LoadingView? <==> loading && developers == []
    ensures v.ErrorView? <==> !(loading && developers == []) && error != ""
    ensures v.ErrorView? ==> v.message == error
    ensures v.ListView? ==> v.shown == FilterDevelopers(developers, search)
  {
    if loading && |developers| == 0 then LoadingView
    else if error != "" then ErrorView(error)
    else ListView(FilterDevelopers(developers, search))
  }

  /** Loading more pages keeps the developers already shown on screen. */
  lemma LoadingMoreKeepsList(developers: seq<Developer>, search: string)
    requires developers != []
    ensures SelectView(developers, true, "", search) == ListView(FilterDevelopers(developers, search))
  {
  }

  // ---------------------------------------------------------------------
  // Links

  const DashboardQuery := "/dashboard?username="

  /** The route `handleProfileClick` navigates to. */
  function ProfilePath(username: string): string {
    DashboardQuery + username
  }

  /** The address `handleShareClick` copies: the same route behind the page's origin. */
  function ShareUrl(origin: string, username: string): (url: string)
    ensures url == origin + ProfilePath(username)
  {
    origin + DashboardQuery + username
  }

  /** The rest of `s` after `prefix`, when `s` starts with it. */
  function StripPrefix(s: string, prefix: string): Option<string> {
    if StartsWith(s, prefix) then Some(s[|prefix|..]) else None
  }

  /**
   * Both links carry the developer's username after `/dashboard?username=`:
   * the route, and the copied address once its origin is removed.
   */
  lemma ProfilePathRoundTrip(origin: string, username: string)
    ensures StripPrefix(ProfilePath(username), DashboardQuery) == Some(username)
    ensures StripPrefix(ShareUrl(origin, username)[|origin|..], DashboardQuery) == Some(username)
  {
    var path := ProfilePath(username);
    assert path[..|DashboardQuery|] == DashboardQuery;
    assert (origin + path)[|origin|..] == path;
  }
}
