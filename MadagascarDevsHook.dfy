/**
 * The paginated loader of `src/hooks/useMadagascarDevs.ts`: one page of the
 * user search for location Madagascar at a time, each user completed with
 * the name from its profile. The search answer and the profile answers are
 * inputs.
 */
module MadagascarDevsHook {
  import opened JsText

  datatype Developer = Developer(username: string, name: string)

  /** The answer to `/users/{login}`: its `name` field, or a failed request. */
  datatype UserDetail = DetailFailed | Detail(name: Option<string>)

  datatype SearchUser = SearchUser(login: string, detail: UserDetail)

  /** The answer to the search request: a page of users, or a failed request. */
  datatype SearchOutcome = SearchFailed | SearchPage(items: seq<SearchUser>)

  const FetchErrorMessage := "Erreur lors de la récupération des développeurs."

  /** `name: userDetails.data.name || user.login`, and the login alone when the request fails. */
  function DeveloperOf(u: SearchUser): (d: Developer)
    ensures d.username == u.login
    ensures d.name == u.login || (u.detail.Detail? && u.detail.name == Some(d.name))
    ensures d.name != "" <== u.login != ""
    ensures u.detail.Detail? && Truthy(u.detail.name) ==> d.name == u.detail.name.value
  {
    match u.detail
    case Detail(name) => Developer(u.login, if Truthy(name) then name.value else u.login)
    case DetailFailed => Developer(u.login, u.login)
  }

  /** `Promise.all(users.map(...))`: no detail request can fail the whole page. */
  function DevelopersOf(users: seq<SearchUser>): (r: seq<Developer>)
    ensures |r| == |users|
    ensures forall i :: 0 <= i < |r| ==> r[i] == DeveloperOf(users[i])
  {
    if |users| == 0 then [] else [DeveloperOf(users[0])] + DevelopersOf(users[1..])
  }

  class DevelopersLoader {
    var developers: seq<Developer>
    var loading: bool
    var error: string
    var page: int
    var hasMore: bool

    constructor()
      ensures developers == [] && loading && error == "" && page == 1 && hasMore
    {
      developers := [];
      loading := true;
      error := "";
      page := 1;
      hasMore := true;
    }

    /**
     * `fetchDevs` for the result of the search request of the current page:
     * an empty page ends the pagination, a full one appends its developers;
     * a failure sets the error message; loading is cleared in the end.
     */
    method FetchDevs(outcome: SearchOutcome)
      modifies this
      ensures !loading && page == old(page)
      ensures outcome.SearchFailed? ==>
        error == FetchErrorMessage && developers == old(developers) && hasMore == old(hasMore)
      ensures outcome.SearchPage? && outcome.items == [] ==>
        error == "" && developers == old(developers) && !hasMore
      ensures outcome.SearchPage? && outcome.items != [] ==>
        error == "" && developers == old(developers) + DevelopersOf(outcome.items) && hasMore == old(hasMore)
    {
      loading := true;
      error := "";
      match outcome {
        case SearchFailed =>
          error := FetchErrorMessage;
        case SearchPage(users) =>
          if |users| == 0 {
            hasMore := false;
          } else {
            var detailedUsers := DevelopersOf(users);
            developers := developers + detailedUsers;
          }
      }
      loading := false;
    }

    /** `fetchMoreDevs`: the next page, while there may be one. */
    method FetchMoreDevs()
      modifies this
      ensures page == (if old(hasMore) then old(page) + 1 else old(page))
      ensures developers == old(developers) && loading == old(loading)
      ensures error == old(error) && hasMore == old(hasMore)
    {
      if hasMore {
        page := page + 1;
      }
    }

    /**
     * The "load more" button followed by the effect on `page`, given the
     * search result for the next page: nothing happens once the pagination
     * has ended.
     */
    method LoadMore(next: SearchOutcome)
      modifies this
      ensures !old(hasMore) ==>
        developers == old(developers) && page == old(page) && loading == old(loading) && error == old(error)
        && hasMore == old(hasMore)
      ensures old(hasMore) && next.SearchPage? && next.items != [] ==>
        developers == old(developers) + DevelopersOf(next.items) && page == old(page) + 1 && hasMore
        && error == ""
      ensures old(hasMore) && next.SearchPage? && next.items == [] ==>
        developers == old(developers) && page == old(page) + 1 && !hasMore && error == ""
      ensures old(hasMore) && next.SearchFailed? ==>
        developers == old(developers) && page == old(page) + 1 && error == FetchErrorMessage && hasMore
      ensures old(hasMore) ==> !loading
    {
      var before := page;
      FetchMoreDevs();
      if page != before {
        FetchDevs(next);
      }
    }
  }
}
