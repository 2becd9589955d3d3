/**
 The user detail page: its loader, which requests a user's profile and most
 recently updated repositories side by side and merges the two outcomes, and
 the small display rules the page applies to what the loader returned.
 */
module Detail {
  import opened Js
  import opened TryCatch
  import opened Api
  import Sequences
  import LanguageColor

  const ProfilePrefix: string := "users/"

  /** The fixed query of the repository request: newest first, ten per page. */
  const ReposQuery: string := "/repos?sort=updated&per_page=10"

  /** The provider path of a user's profile; the name is inserted without encoding. */
  function ProfilePath(username: string): (p: string)
    ensures |p| == |ProfilePrefix| + |username|
    ensures p[..|ProfilePrefix|] == ProfilePrefix && p[|ProfilePrefix|..] == username
  {
    ProfilePrefix + username
  }

  /** The provider path of a user's first page of repositories. */
  function ReposPath(username: string): (p: string)
    ensures ProfilePath(username) <= p
    ensures p[|ProfilePath(username)|..] == ReposQuery
  {
    ProfilePath(username) + ReposQuery
  }

  /** Different user names give different request paths. */
  lemma PathsInjective(u: string, v: string)
    requires u != v
    ensures ProfilePath(u) != ProfilePath(v)
    ensures ReposPath(u) != ReposPath(v)
  {
  }

  /** What the loader hands to the page. */
  datatype DetailData = DetailData(
    user: Option<UserDetail>,
    repositories: Option<seq<Repository>>,
    errors: seq<string>)

  /** The loader of `/detail/:username`. The two provider requests are the
      parameters `getUser` and `getRepos`, each applied to the path requested. */
  function Loader(username: string,
                  getUser: string -> Settled<UserDetail>,
                  getRepos: string -> Settled<seq<Repository>>): (d: DetailData)
    ensures d.user == Wrap(getUser(ProfilePath(username))).Value()
    ensures d.repositories == Wrap(getRepos(ReposPath(username))).Value()
    ensures forall e :: e in d.errors <==>
      (Some(e) == Wrap(getUser(ProfilePath(username))).Error() ||
       Some(e) == Wrap(getRepos(ReposPath(username))).Error())
    ensures Sequences.NoDuplicates(d.errors)
    ensures |d.errors| <= 2
  {
    var userResult := Wrap(getUser(ProfilePath(username)));
    var reposResult := Wrap(getRepos(ReposPath(username)));
    var errors := Compact([userResult.Error(), reposResult.Error()]);
    DetailData(userResult.Value(), reposResult.Value(), Sequences.Firsts(errors))
  }

  /** Merging two error slots: `[a, b].filter(Boolean)` followed by the `Set`
      round trip, for slots that hold no empty message. */
  lemma MergeErrors(a: Option<string>, b: Option<string>)
    requires a.None? || a.value != ""
    requires b.None? || b.value != ""
    ensures Sequences.Firsts(Compact([a, b])) ==
      if a.None? then (if b.None? then [] else [b.value])
      else if b.None? || b.value == a.value then [a.value]
      else [a.value, b.value]
  {
    var compact := if a.None? then (if b.None? then [] else [b.value])
                   else if b.None? then [a.value] else [a.value, b.value];
    assert Compact([a, b]) == compact by {
      assert [a, b][1..] == [b];
      assert [b][1..] == [];
    }
    if a.Some? && b.Some? {
      Sequences.FirstsOfPair(a.value, b.value);
    } else if compact != [] {
      assert compact[..0] == [];
    }
  }

  /** The error list, case by case: empty when both requests succeed, the one
      message when one fails or both fail alike, and the profile's message
      before the repositories' when both fail differently. */
  lemma LoaderErrors(username: string,
                     getUser: string -> Settled<UserDetail>,
                     getRepos: string -> Settled<seq<Repository>>)
    ensures var d := Loader(username, getUser, getRepos);
            var u, r := getUser(ProfilePath(username)), getRepos(ReposPath(username));
            && (u.Fulfilled? && r.Fulfilled? ==> d.errors == [])
            && (u.Rejected? && r.Fulfilled? ==> d.errors == [ExtractMessage(u.response)])
            && (u.Fulfilled? && r.Rejected? ==> d.errors == [ExtractMessage(r.response)])
            && (u.Rejected? && r.Rejected? ==>
                  d.errors == if ExtractMessage(u.response) == ExtractMessage(r.response)
                              then [ExtractMessage(u.response)]
                              else [ExtractMessage(u.response), ExtractMessage(r.response)])
  {
    var u, r := getUser(ProfilePath(username)), getRepos(ReposPath(username));
    MergeErrors(Wrap(u).Error(), Wrap(r).Error());
  }

  /** The profile part of the page does not depend on the repository request,
      and the repository part does not depend on the profile request. */
  lemma ResultsIndependent(username: string,
                           getUser1: string -> Settled<UserDetail>, getUser2: string -> Settled<UserDetail>,
                           getRepos1: string -> Settled<seq<Repository>>, getRepos2: string -> Settled<seq<Repository>>)
    ensures Loader(username, getUser1, getRepos1).user == Loader(username, getUser1, getRepos2).user
    ensures Loader(username, getUser1, getRepos1).repositories == Loader(username, getUser2, getRepos1).repositories
  {
  }

  // ----- display rules -----

  /** `s.startsWith("http")`. */
  predicate StartsWithHttp(s: string) {
    |s| >= 4 && s[..4] == "http"
  }

  /** The blog link target: kept as is when it starts with "http", otherwise
      prefixed with "https://". */
  function BlogHref(blog: string): (href: string)
    ensures StartsWithHttp(href)
    ensures href == blog || href == "https://" + blog
    ensures |blog| <= |href| && href[|href| - |blog|..] == blog
  {
    if StartsWithHttp(blog) then blog else "https://" + blog
  }

  /** Normalising twice is normalising once, and exactly the values that
      already start with "http" are left unchanged. */
  lemma BlogHrefIdempotent(blog: string)
    ensures BlogHref(BlogHref(blog)) == BlogHref(blog)
    ensures BlogHref(blog) == blog <==> StartsWithHttp(blog)
  {
    if !StartsWithHttp(blog) {
      assert |BlogHref(blog)| == |blog| + 8;
    }
  }

  /** The website link of the profile: shown only when the profile has a
      non-empty blog value. */
  function BlogLink(user: Option<UserDetail>): (link: Option<string>)
    ensures link.Some? <==> user.Some? && Truthy(user.value.blog)
    ensures link.Some? ==> StartsWithHttp(link.value)
    ensures link.Some? ==> link.value == BlogHref(user.value.blog.value)
  {
    if user.Some? && Truthy(user.value.blog) then Some(BlogHref(user.value.blog.value)) else None
  }

  /** The page heading: the user's name when it is non-empty, else the login. */
  function DisplayName(user: Option<UserDetail>): (name: Option<string>)
    ensures name.Some? <==> user.Some?
    ensures user.Some? && Truthy(user.value.name) ==> name == user.value.name
    ensures user.Some? && !Truthy(user.value.name) ==> name == Some(user.value.login)
  {
    if user.Some? then Some(OrElse(user.value.name, user.value.login)) else None
  }

  /** The topic badges of a repository card: at most three topics, followed by
      a "+n" badge counting the ones not shown. */
  datatype TopicBadges = TopicBadges(shown: seq<string>, overflow: Option<nat>)

  const MaxTopicsShown: nat := 3

  /** The topic row; absent when the repository has no topics. */
  function Topics(topics: Option<seq<string>>): (row: Option<TopicBadges>)
    ensures row.None? <==> topics.None? || |topics.value| == 0
    ensures row.Some? ==> row.value.shown <= topics.value
    ensures row.Some? ==>
      |row.value.shown| == if |topics.value| < MaxTopicsShown then |topics.value| else MaxTopicsShown
    ensures row.Some? ==> (row.value.overflow.Some? <==> |topics.value| > MaxTopicsShown)
    ensures row.Some? && row.value.overflow.Some? ==>
      |row.value.shown| + row.value.overflow.value == |topics.value|
  {
    if topics.None? || |topics.value| == 0 then None
    else
      var ts := topics.value;
      var shown := if |ts| < MaxTopicsShown then ts else ts[..MaxTopicsShown];
      var overflow := if |ts| > MaxTopicsShown then Some(|ts| - MaxTopicsShown) else None;
      Some(TopicBadges(shown, overflow))
  }

  /** Shown topics and hidden topics together are all the topics, in order. */
  lemma TopicsPartition(topics: seq<string>)
    requires |topics| > 0
    ensures var row := Topics(Some(topics)).value;
            row.shown + topics[|row.shown|..] == topics
            && |topics[|row.shown|..]| == (if row.overflow.Some? then row.overflow.value else 0)
  {
  }

  /** The language cell of a repository card: a coloured dot with the name,
      or a dash when the repository has no language. */
  datatype LanguageCell = Dash | Colored(color: string, text: string)

  function LanguageOf(language: Option<string>): (cell: LanguageCell)
    ensures cell.Dash? <==> !Truthy(language)
    ensures cell.Colored? ==> cell.text == language.value && cell.color in LanguageColor.Palette
    ensures cell.Colored? ==> cell.color == LanguageColor.ColorOf(language.value)
  {
    if Truthy(language) then Colored(LanguageColor.ColorOf(language.value), language.value) else Dash
  }
}
