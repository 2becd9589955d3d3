/**
 The repository pagination controls: a Previous and a Next form, each
 submitting a target page and the current page size to `/detail/{username}`.
 The `page` parameter is taken as already parsed to an integer.
 */
module Pagination {
  import opened Js

  const DefaultPage: int := 1

  /** The page size used when none is given; the form carries it as text. */
  const DefaultPerPage: string := "10"

  /** One of the two forms. */
  datatype PageForm = PageForm(action: string, page: int, perPage: string, disabled: bool)

  datatype Controls = Controls(previous: PageForm, next: PageForm)

  /** `searchParams.get("page") || 1`, after numeric conversion; `None` stands
      for a parameter that is missing or empty. */
  function CurrentPage(pageParam: Option<int>): (page: int)
    ensures pageParam.None? ==> page == DefaultPage
    ensures pageParam.Some? ==> page == pageParam.value
  {
    match pageParam
    case None => DefaultPage
    case Some(p) => p
  }

  /** `searchParams.get("per_page") || 10`. */
  function PerPage(perPageParam: Option<string>): (perPage: string)
    ensures perPage != ""
    ensures Truthy(perPageParam) ==> perPage == perPageParam.value
    ensures !Truthy(perPageParam) ==> perPage == DefaultPerPage
  {
    OrElse(perPageParam, DefaultPerPage)
  }

  const DetailPrefix: string := "/detail/"

  /** The form action shared by both controls; the name is inserted without encoding. */
  function Action(username: string): (action: string)
    ensures |action| == |DetailPrefix| + |username|
    ensures action[..|DetailPrefix|] == DetailPrefix && action[|DetailPrefix|..] == username
  {
    DetailPrefix + username
  }

  /** The two controls rendered for the current query parameters. */
  function Render(username: string, pageParam: Option<int>, perPageParam: Option<string>): (c: Controls)
    ensures c.previous.page + 1 == CurrentPage(pageParam)
    ensures c.next.page - 1 == CurrentPage(pageParam)
    ensures c.previous.disabled <==> CurrentPage(pageParam) == 1
    ensures !c.next.disabled
    ensures c.previous.perPage == c.next.perPage == PerPage(perPageParam)
    ensures c.previous.action == c.next.action == Action(username)
  {
    var page := CurrentPage(pageParam);
    var perPage := PerPage(perPageParam);
    Controls(
      PageForm(Action(username), page - 1, perPage, page == 1),
      PageForm(Action(username), page + 1, perPage, false))
  }

  /** Without parameters the controls sit on page 1: Previous is disabled and
      Next asks for page 2 with ten entries per page. */
  lemma FirstPageDefaults(username: string)
    ensures var c := Render(username, None, None);
            c.previous.disabled && c.previous.page == 0
            && !c.next.disabled && c.next.page == 2 && c.next.perPage == "10"
  {
  }

  /** The Previous and Next targets lie one page either side of the current
      page, two pages apart; both forms carry the same page size, and that
      size is read back unchanged by the `per_page` default rule. */
  lemma TargetsTwoApart(username: string, pageParam: Option<int>, perPageParam: Option<string>)
    ensures var c := Render(username, pageParam, perPageParam);
            && c.previous.page + 1 == CurrentPage(pageParam) == c.next.page - 1
            && c.next.page - c.previous.page == 2
            && c.previous.perPage == c.next.perPage
            && PerPage(Some(c.next.perPage)) == c.next.perPage
  {
  }

  /** From a page of at least 1, every enabled control targets a page of at least 1. */
  lemma EnabledTargetsStayPositive(username: string, pageParam: Option<int>, perPageParam: Option<string>)
    requires CurrentPage(pageParam) >= 1
    ensures var c := Render(username, pageParam, perPageParam);
            (!c.previous.disabled ==> c.previous.page >= 1) && c.next.page >= 2
  {
  }

  /** Previous is disabled only at exactly page 1: on page 0 it stays enabled and targets page -1. */
  lemma PreviousEnabledBelowOne(username: string, perPageParam: Option<string>)
    ensures var c := Render(username, Some(0), perPageParam);
            !c.previous.disabled && c.previous.page == -1
  {
  }
}
