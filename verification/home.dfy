/**
 The search page loader: reads the `user` query parameter and, when it is
 non-empty, searches the provider for matching accounts, five per page.
 */
module Home {
  import opened Js
  import opened TryCatch
  import opened Api

  const SearchPrefix: string := "search/users?q="
  const SearchSuffix: string := "&per_page=5"

  /** The provider path of a user search; the term is inserted without encoding. */
  function SearchPath(term: string): (p: string)
    ensures |p| == |SearchPrefix| + |term| + |SearchSuffix|
    ensures p[..|SearchPrefix|] == SearchPrefix
    ensures p[|SearchPrefix|..|SearchPrefix| + |term|] == term
    ensures p[|SearchPrefix| + |term|..] == SearchSuffix
  {
    SearchPrefix + term + SearchSuffix
  }

  /** What the loader hands to the page. */
  datatype HomeData = HomeData(user: string, users: Option<UserList>, error: Option<string>)

  /** The state of the page before any search. */
  const Empty: HomeData := HomeData("", None, None)

  /** The request the loader issues for a `user` parameter: none when the
      parameter is missing or empty. */
  function SearchRequest(userParam: Option<string>): (path: Option<string>)
    ensures path.None? <==> !Truthy(userParam)
    ensures path.Some? ==> path.value == SearchPath(userParam.value)
  {
    if Truthy(userParam) then Some(SearchPath(userParam.value)) else None
  }

  /** The loader of `/`. The provider's search is the parameter `search`,
      applied to the path requested. */
  function Loader(userParam: Option<string>, search: string -> Settled<UserList>): (d: HomeData)
    ensures !Truthy(userParam) ==> d == Empty
    ensures Truthy(userParam) ==> d.user == userParam.value
    ensures Truthy(userParam) ==> d.users.Some? != d.error.Some?
    ensures Truthy(userParam) ==>
      d.users == Wrap(search(SearchPath(userParam.value))).Value() &&
      d.error == Wrap(search(SearchPath(userParam.value))).Error()
  {
    match SearchRequest(userParam)
    case None => Empty
    case Some(path) =>
      var result := Wrap(search(path));
      HomeData(userParam.value, result.Value(), result.Error())
  }

  /** Without a search term the provider is never consulted: any two providers
      give the same page. */
  lemma EmptyQueryIgnoresProvider(userParam: Option<string>,
                                  search1: string -> Settled<UserList>,
                                  search2: string -> Settled<UserList>)
    requires !Truthy(userParam)
    ensures Loader(userParam, search1) == Loader(userParam, search2)
  {
  }

  /** With a search term, only the provider's answer at the search path matters. */
  lemma OnlySearchPathConsulted(term: string,
                                search1: string -> Settled<UserList>,
                                search2: string -> Settled<UserList>)
    requires term != ""
    requires search1(SearchPath(term)) == search2(SearchPath(term))
    ensures Loader(Some(term), search1) == Loader(Some(term), search2)
  {
  }

  /** Different search terms give different request paths. */
  lemma SearchPathInjective(a: string, b: string)
    requires a != b
    ensures SearchPath(a) != SearchPath(b)
  {
  }
}
