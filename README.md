# Blog post listing and pagination

A Dafny model of the home page of a small server-rendered blog
(`src/pages/index.tsx`). The page receives the first page of posts from a
headless content API and keeps the posts on screen as component state. A
"Carregar posts" (load more) button fetches the next page through the
cursor URL `next_page`. The page does three things, and each is modelled:

- **Normalisation** (`Posts`). A content-API document is projected into the
  display `Post` shape. The projection keeps `uid`, `first_publication_date`
  and `data.title`, `data.subtitle` and `data.author`, and drops everything
  else. The same projection serves the first page (`getStaticProps`) and every
  loaded page.
- **The listing state** (`Home.Listing`). The `posts` list is seeded from the
  first page. The cursor is fixed at creation. `LoadMore` fetches the cursor
  URL and puts the normalised results in front of the list. It does not read
  the response's own `next_page`, so the cursor never advances. Every click
  fetches the same URL, and the button never goes away once shown. The model
  keeps this behaviour as written. `RepeatedLoadRepeatsPage` proves the
  consequence: when the server answers the repeated request with the same
  page, the list holds that page twice. If the page is non-empty, the list's
  uids are then no longer distinct. `MergeDistinct` states exactly when a load
  keeps the uids distinct.
- **Rendering order** (`Home.Render`). There is one entry per post, in list
  order. Each entry is keyed by `uid` and links to `/post/<uid>`.

The fetch itself is a parameter: `LoadMore` receives the decoded response of
the request it makes, and returns the URL it requested.

Files: `wrappers.dfy` (an `Option` type), `posts.dfy` (module `Posts`),
`home.dfy` (module `Home`).

## Model

| member | source | states |
|---|---|---|
| Posts.NormalizeReadsOnlyDisplayFields | src/pages/index.tsx:38-48 | two documents normalise to the same post if and only if they agree on uid, publication date, title, subtitle and author; no other field is read |
| Posts.NormalizeReattach | src/pages/index.tsx:113-123 | a post written onto any document and normalised again comes back unchanged; no field is altered or added |
| Posts.Normalize | src/pages/index.tsx:38-48 | the display post of a document: writing it back onto the document changes nothing, so its uid, publication date, title, subtitle and author are the document's own; the lemmas below show that nothing else is read |
| Posts.NormalizeIdempotent | src/pages/index.tsx:38-48 | normalising an already normalised post gives the same post |
| Posts.NormalizeAll | src/pages/index.tsx:38-48 | a page normalises to exactly as many posts as it has documents, position i being the normalisation of document i (server order kept) |
| Posts.NormalizeAllAppend | src/pages/index.tsx:38 | normalising two pages joined is normalising each and joining the results |
| Posts.NormalizeAllReadsOnlyDisplayFields | src/pages/index.tsx:113 | two pages normalise to the same list if and only if they have the same length and agree position by position on the display fields |
| Posts.StaticProps | src/pages/index.tsx:113-130 | the props keep the response's `next_page` as it is and hold one normalised post per result, in order |
| Home.Listing.constructor | src/pages/index.tsx:31-32 | the initial list is the props' results and the cursor is the props' `next_page`, with nothing loaded or fetched yet |
| Home.Listing.ShowLoadMore | src/pages/index.tsx:89-97 | the button is shown exactly when the cursor is neither null nor the empty string |
| Home.Merge | src/pages/index.tsx:49 | the new list is the normalised page followed by the old list: its length is the sum, its prefix is the page and its suffix is the old list |
| Home.MergeKeepsCurrent | src/pages/index.tsx:49 | every post held before a load is still present and unmodified, shifted by the page size; the new list is, as a multiset, the page plus the old list |
| Home.MergeTwice | src/pages/index.tsx:34-51 | two loads in a row equal one load of the later page followed by the earlier one; the newest page always comes first |
| Home.RepeatedLoadRepeatsPage | src/pages/index.tsx:35-49 | loading the same page twice duplicates each of its posts and, for a non-empty page, breaks the distinctness of uids |
| Home.MergeDistinct | src/pages/index.tsx:49 | a load keeps the uids distinct if and only if the fetched page's uids are distinct, the old list's are, and no fetched uid is already in the old list |
| Home.Listing.LoadMore | src/pages/index.tsx:34-51 | fetches the cursor URL, prepends the normalised results to the old list, leaves the cursor and button unchanged, and keeps the invariant that every fetch went to that cursor |
| Home.LoadTwice | src/pages/index.tsx:89-91 | two clicks fetch the same URL, and the list becomes the second page, then the first, then the old list |
| Home.SeedIsSuffix | src/pages/index.tsx:32 | in every reachable state the seeded posts sit unchanged at the end of the list |
| Home.Render | src/pages/index.tsx:62-66 | one entry per post, in list order, each keyed by the post's uid and showing its title |
| Home.RenderAppend | src/pages/index.tsx:62 | rendering two lists joined is rendering each and joining the entries |
| Home.RenderAfterLoad | src/pages/index.tsx:49-63 | after a load the fetched page's entries are drawn first, followed by the entries already on screen |
| Home.Href | src/pages/index.tsx:63 | every link starts with `/post/` and, for a post with a uid, is `/post/` followed by that uid |
| Home.RenderPost | src/pages/index.tsx:63-83 | the entry shows the whole post (uid as key, title, subtitle, raw date, author), so the post can be read back from it, and its link is the `/post/` page of the same uid as its key |

## Left out

- Network I/O: the `fetch(next_page)` and `.json()` calls, and the content-API query with its type predicate, field list and `pageSize: 20` (src/pages/index.tsx:35-36, 104-111). The decoded response is an argument of `LoadMore`, and the first page's response is an argument of `StaticProps`.
- Which fields the API returns for the field list `post.title`, `post.content`: the model takes the documents' title, subtitle and author to be present strings, as the `Post` interface declares them.
- Fetch failures: the source has no handler, so a failed load leaves the list as it was. In the model this is simply a `LoadMore` that is not called.
- Date formatting (`format(new Date(...), 'dd MMM yyyy', { locale: ptBR })`) depends on a library and a locale. `Entry.published` holds the raw date handed to the formatter.
- Home.Render: does not model the JSX markup, icons, CSS classes or the `Link`/`Head` components. It models only the entries' content and order.
- Overlapping `getMorePosts` calls and the render-time closure over `posts`. This is concurrency: loads are modelled as sequential steps that run to completion.
- Incremental static regeneration (`revalidate: 60 * 60 * 24`, src/pages/index.tsx:132) and the React `useState` mechanics.
- src/services/prismic.ts (HTTP client construction, the access token and the TLS environment flag) and src/components/Header/index.tsx (presentational markup only) are not part of this model.
