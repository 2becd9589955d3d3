# git-explorer core, modelled in Dafny

git-explorer is a small web client over GitHub's REST API: a search page
lists accounts matching a query, and a detail page shows one user's profile
and recently updated repositories. This project models the deterministic
logic of that client as pure functions over immutable datatypes:

- the result wrapper `tryCatch`, which turns a settled provider request into
  a two-slot result `[value, null]` / `[null, message]` with the
  `"Unknown Error!"` fallback (module `TryCatch`);
- the detail-page loader: its two request paths, the pass-through of the
  profile and repositories, and the error list built with `filter(Boolean)`
  and an insertion-ordered `Set` (modules `Detail`, `Sequences`, `Js`);
- the detail page's display rules: blog-link normalisation, topic badges with
  a `+n` overflow badge, the `name || login` heading, the language cell;
- the search-page loader with its empty-query short-circuit (module `Home`);
- the pagination controls' page and page-size arithmetic (module `Pagination`);
- the language-to-colour table (module `LanguageColor`; the detail page holds
  an identical inline copy, modelled by the same definition).

Provider requests are parameters: a loader receives a function from request
path to `Settled` outcome, so each contract can say which path was requested
and that the outcome reached the page unchanged. JavaScript `null`/`undefined`
is `Js.Option`, and string truthiness (only `""` is falsy) is `Js.Truthy`.

Behaviour of the code worth knowing when reading the model:
- the code has no loading state and no re-entrancy guard around page changes;
- Previous is disabled only when the page is exactly 1, so a page of 0 leaves
  it enabled with target -1 (`PreviousEnabledBelowOne`);
- a provider message is used only when it is non-empty; an empty message also
  gives the fallback text;
- the detail loader ignores `page`/`per_page` and always asks for ten
  repositories, and the pagination controls are not mounted on the detail page.

## Model

| member | source | states |
|---|---|---|
| TryCatch.FromSlots | app/utils/try-catch.ts:3-5 | a pair of slots is a result exactly when one slot is null and the other is not |
| TryCatch.SlotsRoundTrip | app/utils/try-catch.ts:3-5 | every modelled result reads back from its own two slots, so none has both slots set or, for a non-null fulfilment value, both null |
| TryCatch.ExtractMessage | app/utils/try-catch.ts:12-14 | the failure message is never empty; it is the provider's message when that is non-empty, otherwise "Unknown Error!"; any other text came verbatim from the payload |
| TryCatch.Wrap | app/utils/try-catch.ts:7-18 | success gives (value, null) with the value unchanged, failure gives (null, non-empty message), and exactly one slot is populated (fulfilment with null is under Left out) |
| TryCatch.ProviderMessageVerbatim | app/utils/try-catch.ts:12-13 | a non-empty `response.data.message` becomes the failure message as is |
| TryCatch.FallbackMessage | app/utils/try-catch.ts:12-14 | no response, no message or an empty message yields "Unknown Error!" |
| TryCatch.WrapLogged | app/utils/try-catch.ts:11-16 | a rejection appends the rejection's response to the diagnostic log; success leaves the log alone; the result is that of the unlogged wrapper |
| TryCatch.LoggingDoesNotAffectResult | app/utils/try-catch.ts:15-16 | whatever the log held before, the returned result is the same |
| Js.Compact | app/routes/detail.tsx:36 | `filter(Boolean)` keeps exactly the present, non-empty strings and never grows the list |
| Js.CompactAppend | app/routes/detail.tsx:36 | filtering keeps order: it distributes over concatenation |
| Sequences.Firsts | app/routes/detail.tsx:41 | the `Set` round trip has no duplicates, loses no value and adds none |
| Sequences.Dedup | app/routes/detail.tsx:41 | inserting into a set while walking the list yields exactly the first occurrences in order |
| Sequences.FirstsPrefix | app/routes/detail.tsx:41 | later values never reorder or remove values already kept (insertion order) |
| Sequences.FirstsOfPair | app/routes/detail.tsx:41 | two equal values collapse to one; two different values keep their order |
| Detail.ProfilePath | app/routes/detail.tsx:26 | the profile path is "users/" followed by the user name, unencoded |
| Detail.ReposPath | app/routes/detail.tsx:30 | the repository path extends the profile path by "/repos?sort=updated&per_page=10" |
| Detail.PathsInjective | app/routes/detail.tsx:26-30 | different user names request different paths |
| Detail.Loader | app/routes/detail.tsx:24-43 | `user` and `repositories` are the value slots of the profile and repository requests at their paths; `errors` holds exactly their error messages, without duplicates, at most two |
| Detail.MergeErrors | app/routes/detail.tsx:36-41 | for two slots without empty messages the merged list is empty, one message, or both in profile-then-repositories order when they differ |
| Detail.LoaderErrors | app/routes/detail.tsx:34-42 | no errors when both requests succeed, one when exactly one fails or both fail alike, two in order when both fail differently |
| Detail.ResultsIndependent | app/routes/detail.tsx:34-40 | the profile part does not depend on the repository request and vice versa |
| Detail.BlogHref | app/routes/detail.tsx:156-158 | the link always starts with "http", is the blog value or "https://" before it, and ends with the blog value |
| Detail.BlogHrefIdempotent | app/routes/detail.tsx:156-158 | normalising twice equals normalising once; a value is left unchanged exactly when it starts with "http" |
| Detail.BlogLink | app/routes/detail.tsx:153-159 | the website link exists exactly when there is a profile with a non-empty blog; it is the normalised blog value, so it starts with "http" |
| Detail.DisplayName | app/routes/detail.tsx:100 | with a profile, the heading is its name when that is non-empty and its login otherwise; without a profile there is no heading text |
| Detail.Topics | app/routes/detail.tsx:211-229 | no topic row for missing or empty topics; otherwise the first min(n, 3) topics, and a "+(n-3)" badge exactly when n > 3, shown plus overflow making n |
| Detail.TopicsPartition | app/routes/detail.tsx:213-227 | shown topics followed by the hidden ones are all the topics, and the badge counts the hidden ones |
| Detail.LanguageOf | app/routes/detail.tsx:235-246 | a dash when the repository has no language, otherwise the name with its palette colour |
| LanguageColor.ColorOf | app/utils/get-language-color.ts:1-10 | the lookup is total, always returns one of six colours, and returns grey exactly for names outside the table |
| LanguageColor.KnownLanguages | app/utils/get-language-color.ts:3-7 | JavaScript, TypeScript, Python, HTML and CSS map to yellow-500, blue-500, green-500, red-500 and blue-400 |
| LanguageColor.CaseSensitive | app/utils/get-language-color.ts:9 | a lower-case spelling such as "javascript" maps to grey |
| LanguageColor.ColorsDistinct | app/utils/get-language-color.ts:2-8 | the five table entries have five different colours; six colours in all |
| Home.SearchPath | app/routes/home.tsx:28 | the search path is "search/users?q=", the term unencoded, then "&per_page=5" |
| Home.SearchPathInjective | app/routes/home.tsx:28 | different terms request different paths |
| Home.SearchRequest | app/routes/home.tsx:24-28 | no request for a missing or empty `user`; otherwise exactly the search path of that term |
| Home.Loader | app/routes/home.tsx:22-31 | an empty query gives `{user: "", users: null, error: null}`; otherwise `user` is the query unchanged and exactly one of `users`/`error` is set, from the request at the search path |
| Home.EmptyQueryIgnoresProvider | app/routes/home.tsx:24-25 | without a term the provider is never consulted: any two providers give the same page |
| Home.OnlySearchPathConsulted | app/routes/home.tsx:27-30 | with a term, only the provider's answer at the search path matters |
| Pagination.CurrentPage | app/components/ui/pagination.tsx:8 | `page` is 1 when missing or empty, else the given page |
| Pagination.PerPage | app/components/ui/pagination.tsx:9 | `per_page` is the given text when non-empty, else "10"; never empty |
| Pagination.Action | app/components/ui/pagination.tsx:13 | the form action is "/detail/" followed by the user name, unencoded |
| Pagination.Render | app/components/ui/pagination.tsx:13-30 | Previous targets page-1 and is disabled exactly at page 1; Next targets page+1 and is never disabled; both carry the same page size and post to "/detail/{username}" |
| Pagination.FirstPageDefaults | app/components/ui/pagination.tsx:8-25 | with no parameters Previous is disabled and Next asks for page 2 with ten per page |
| Pagination.TargetsTwoApart | app/components/ui/pagination.tsx:21-26 | the Previous and Next targets are one page either side of the current page, two apart, and both forms carry the same page size, which the `per_page` default rule reads back unchanged |
| Pagination.EnabledTargetsStayPositive | app/components/ui/pagination.tsx:17-25 | from a page of at least 1, every enabled control targets a page of at least 1 |
| Pagination.PreviousEnabledBelowOne | app/components/ui/pagination.tsx:17-21 | on page 0 Previous is enabled and targets page -1, since only page 1 disables it |

## Left out

- HTTP and the network: the axios calls and `Promise.all` are replaced by
  functions from request path to settled outcome; the order in which the two
  detail requests settle is not modelled, as the loader waits for both.
- The relay in app/routes/api/pagination.ts, which forwards a caller-supplied
  URL and answers status 400 on failure: it is network plumbing around the wrapper.
- A loading/next/previous state machine or re-entrancy guard: the code has
  none. The pagination forms are submitted through a fetcher, which does not
  change the URL, so no sequence of clicks is modelled.
- Rendering: JSX markup, router hooks, `useNavigation`, `window.open`, and the
  `repositories?.length &&` render quirk (which renders `0` for an empty list).
- `formatDate` (locale date formatting) and the upper-cased avatar initial.
- Pagination.Render: the page arithmetic `+page - 1` and `+page + 1` is
  JavaScript double arithmetic, so from 2^53 upward `page ± 1` can round (at
  2^53 the Next target equals the current page); the model's unbounded
  integers make the targets exact, which the code guarantees only below 2^53.
  The same applies to Pagination.TargetsTwoApart.
- Numeric parsing: `+page` on a non-numeric string gives NaN; the model takes
  `page` as an already parsed integer.
- LanguageColor.ColorOf: the table is a finite map, so JavaScript prototype
  keys such as "constructor" are not modelled as hits.
- TryCatch.Wrap: a request that fulfils with `null` or `undefined` gives
  `[null, null]` in the code, since the success pair is `[result, null]`; the
  model's success always fills the value slot, because the provider bodies the
  loaders request (a profile, a repository array, a search result) are never null.
- TryCatch.ExtractMessage: an error whose response has no `data` would throw
  inside the catch block; the model assumes every response carries a body,
  and a message is a string.
- The route table app/routes.ts and the test file, which only confirms the
  JavaScript colour. The provider types file (app/types/api.ts) is not part of
  this model; the `Api` records hold the fields the pages use.
