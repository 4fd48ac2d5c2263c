/**
 * The blog's home page (src/pages/index.tsx): the list of posts it holds,
 * the "load more" transition that merges a fetched page into it, the guard
 * that shows the button, and the order in which the entries are rendered.
 */
module Home {
  import opened Wrappers
  import opened Posts

  /** JavaScript truthiness of a `string | null` value. */
  predicate Truthy(v: Option<string>)
  {
    v.Some? && v.value != ""
  }

  /** The list after a page arrives, `[...postsResponse, ...posts]`. */
  function Merge(fetched: seq<RawPost>, current: seq<Post>): (merged: seq<Post>)
    ensures |merged| == |fetched| + |current|
    ensures merged[..|fetched|] == NormalizeAll(fetched)
    ensures merged[|fetched|..] == current
  {
    NormalizeAll(fetched) + current
  }

  /** Every post held before a merge is still there, unmodified, shifted by the size of the page. */
  lemma MergeKeepsCurrent(fetched: seq<RawPost>, current: seq<Post>)
    ensures forall i :: 0 <= i < |current| ==> Merge(fetched, current)[|fetched| + i] == current[i]
    ensures multiset(Merge(fetched, current)) == multiset(NormalizeAll(fetched)) + multiset(current)
  {
    var merged := Merge(fetched, current);
    assert merged == merged[..|fetched|] + merged[|fetched|..];
  }

  /** Two loads in a row: the later page comes first, then the earlier page, then what was there. */
  lemma MergeTwice(first: seq<RawPost>, second: seq<RawPost>, current: seq<Post>)
    ensures Merge(second, Merge(first, current)) == Merge(second + first, current)
  {
    NormalizeAllAppend(second, first);
  }

  /** No two posts of the list share a `uid`. */
  predicate DistinctUids(posts: seq<Post>)
  {
    forall i, j :: 0 <= i < j < |posts| ==> posts[i].uid != posts[j].uid
  }

  /**
   * Since the cursor never advances, a second load fetches the same URL; when
   * the server answers it with the same page, every post of that page appears
   * twice and, for a non-empty page, the list no longer has distinct uids.
   */
  lemma RepeatedLoadRepeatsPage(page: seq<RawPost>, current: seq<Post>)
    ensures |Merge(page, Merge(page, current))| == 2 * |page| + |current|
    ensures forall i :: 0 <= i < |page| ==>
              Merge(page, Merge(page, current))[i] == Merge(page, Merge(page, current))[|page| + i]
    ensures page != [] ==> !DistinctUids(Merge(page, Merge(page, current)))
  {
    var twice := Merge(page, Merge(page, current));
    forall i | 0 <= i < |page| ensures twice[i] == twice[|page| + i] {
      assert twice[i] == twice[..|page|][i];
      assert twice[|page| + i] == twice[|page|..][i];
      assert Merge(page, current)[i] == Merge(page, current)[..|page|][i];
    }
    if page != [] {
      assert twice[0].uid == twice[|page|].uid;
    }
  }

  /** No uid of the fetched page is already in the list. */
  predicate DisjointUids(fetched: seq<RawPost>, current: seq<Post>)
  {
    forall i, j :: 0 <= i < |fetched| && 0 <= j < |current| ==> fetched[i].uid != current[j].uid
  }

  /**
   * A load keeps the uids distinct exactly when the fetched page's uids are
   * distinct among themselves, the list's are, and no fetched uid is already
   * in the list.
   */
  lemma MergeDistinct(fetched: seq<RawPost>, current: seq<Post>)
    ensures DistinctUids(Merge(fetched, current)) <==>
              DistinctUids(NormalizeAll(fetched)) && DistinctUids(current) && DisjointUids(fetched, current)
  {
  }

  /** The result lists of loaded pages joined newest first: the order in which they sit on screen. */
  ghost function NewestFirst(pages: seq<seq<RawPost>>): (joined: seq<RawPost>)
  {
    if pages == [] then [] else pages[|pages| - 1] + NewestFirst(pages[..|pages| - 1])
  }

  /**
   * The page component's state. `posts` is the `useState` list, replaced
   * wholesale by each load; `cursor` is `postsPagination.next_page`, which
   * nothing writes once the component is created. The ghost fields record the
   * history the invariant is stated over.
   */
  class Listing {
    var posts: seq<Post>
    const cursor: Option<string>
    /** The posts the list was seeded with. */
    ghost const seed: seq<Post>
    /** The result lists of the pages loaded so far, oldest first. */
    ghost var loaded: seq<seq<RawPost>>
    /** The URLs fetched so far, oldest first. */
    ghost var requested: seq<string>

    /**
     * The list is every loaded page, newest first, in front of the seed, and
     * every fetch went to the one cursor the component was created with.
     */
    ghost predicate Valid()
      reads this
    {
      && posts == NormalizeAll(NewestFirst(loaded)) + seed
      && |requested| == |loaded|
      && forall i :: 0 <= i < |requested| ==> Some(requested[i]) == cursor
    }

    /** Mounting the component with the props built by `getStaticProps`. */
    constructor (props: PostPagination)
      ensures Valid()
      ensures posts == props.results && cursor == props.next_page
      ensures seed == props.results && loaded == [] && requested == []
    {
      posts := props.results;
      cursor := props.next_page;
      seed := props.results;
      loaded := [];
      requested := [];
    }

    /** `{postsPagination.next_page && <button ...>}`: the button exists exactly while the cursor is neither null nor empty. */
    predicate ShowLoadMore()
      ensures ShowLoadMore() <==> cursor != None && cursor != Some("")
    {
      Truthy(cursor)
    }

    /**
     * `getMorePosts`, run to completion: fetch `url`, the cursor, and put the
     * normalised results of `response` in front of the list. The response's
     * own `next_page` is not read.
     */
    method LoadMore(response: RawPage) returns (url: string)
      requires Valid() && ShowLoadMore()
      modifies this
      ensures Valid()
      ensures Some(url) == cursor && url != ""
      ensures posts == Merge(response.results, old(posts))
      ensures loaded == old(loaded) + [response.results]
      ensures requested == old(requested) + [url]
      ensures ShowLoadMore()
    {
      url := cursor.value;
      posts := Merge(response.results, posts);
      loaded := loaded + [response.results];
      requested := requested + [url];
    }
  }

  /**
   * Two clicks on the button, each run to completion: both fetch the same URL,
   * and the second page lands in front of the first.
   */
  method LoadTwice(l: Listing, first: RawPage, second: RawPage) returns (url1: string, url2: string)
    requires l.Valid() && l.ShowLoadMore()
    modifies l
    ensures l.Valid() && l.ShowLoadMore()
    ensures url1 == url2 && Some(url1) == l.cursor
    ensures l.posts == NormalizeAll(second.results + first.results) + old(l.posts)
  {
    url1 := l.LoadMore(first);
    url2 := l.LoadMore(second);
    MergeTwice(first.results, second.results, old(l.posts));
  }

  /** Loads only ever add posts: the seed stays at the end of the list, in order. */
  lemma SeedIsSuffix(l: Listing)
    requires l.Valid()
    ensures |l.posts| >= |l.seed|
    ensures l.posts[|l.posts| - |l.seed|..] == l.seed
  {
  }

  /** One rendered list entry: the link key and target, the texts shown, and the date handed to the formatter. */
  datatype Entry = Entry(
    key: Option<string>,
    href: string,
    title: string,
    subtitle: string,
    published: Option<string>,
    author: string)

  /**
   * The link target `/post/${post.uid}`. The uid is declared `uid?: string`,
   * so an absent uid interpolates as "undefined".
   */
  function Href(uid: Option<string>): (href: string)
    ensures |href| >= 6 && href[..6] == "/post/"
    ensures uid.Some? ==> href == "/post/" + uid.value
  {
    "/post/" + match uid case Some(u) => u case None => "undefined"
  }

  /**
   * The entry drawn for one post. It shows the post whole: the post can be read
   * back from the entry, and the link goes to the page of the same uid as the key.
   */
  function RenderPost(p: Post): (entry: Entry)
    ensures Post(entry.key, entry.published, PostData(entry.title, entry.subtitle, entry.author)) == p
    ensures entry.href == Href(entry.key)
  {
    Entry(p.uid, Href(p.uid), p.data.title, p.data.subtitle, p.first_publication_date, p.data.author)
  }

  /** `posts.map(post => <Link ...>)`: one entry per post, in list order. */
  function Render(posts: seq<Post>): (entries: seq<Entry>)
    ensures |entries| == |posts|
    ensures forall i :: 0 <= i < |posts| ==>
              entries[i].key == posts[i].uid && entries[i].title == posts[i].data.title &&
              entries[i] == RenderPost(posts[i])
  {
    if posts == [] then [] else [RenderPost(posts[0])] + Render(posts[1..])
  }

  lemma RenderAppend(a: seq<Post>, b: seq<Post>)
    ensures Render(a + b) == Render(a) + Render(b)
  {
  }

  /** After a load the fetched page's entries are drawn first, then the entries that were already on screen. */
  lemma RenderAfterLoad(fetched: seq<RawPost>, current: seq<Post>)
    ensures Render(Merge(fetched, current)) == Render(NormalizeAll(fetched)) + Render(current)
  {
    RenderAppend(NormalizeAll(fetched), current);
  }
}
