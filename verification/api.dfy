/**
 The provider records the application reads. Only the fields the pages use
 are kept; optional fields are `Option`s because the provider sends `null`.
 */
module Api {
  import opened Js

  /** One entry of a user search result. */
  datatype UserSummary = UserSummary(id: int, login: string, avatarUrl: string, accountType: string)

  /** The body of a user search: `{ items: UserSummary[] }`. */
  datatype UserList = UserList(items: seq<UserSummary>)

  /** One user's profile. */
  datatype UserDetail = UserDetail(
    login: string,
    name: Option<string>,
    avatarUrl: string,
    bio: Option<string>,
    followers: int,
    following: int,
    publicRepos: int,
    location: Option<string>,
    createdAt: string,
    htmlUrl: string,
    blog: Option<string>)

  /** One repository of a user's repository listing. */
  datatype Repository = Repository(
    id: int,
    name: string,
    description: Option<string>,
    htmlUrl: string,
    language: Option<string>,
    topics: Option<seq<string>>,
    stargazersCount: int,
    forksCount: int,
    updatedAt: string)
}
