/**
 * Post documents as the content API returns them, the display shape the blog
 * list keeps, and the projection from one to the other (src/pages/index.tsx).
 */
module Posts {
  import opened Wrappers

  /** The `data` part of a document of type "posts". */
  datatype RawData = RawData(title: string, subtitle: string, author: string, content: seq<string>)

  /**
   * A document as the content API returns it. Besides the fields the list
   * displays it carries others (identity, type, tags, revision date, body),
   * so that the model can say that normalisation drops them.
   */
  datatype RawPost = RawPost(
    id: string,
    uid: Option<string>,
    docType: string,
    tags: seq<string>,
    first_publication_date: Option<string>,
    last_publication_date: Option<string>,
    data: RawData)

  /** The `data` part of the display shape. */
  datatype PostData = PostData(title: string, subtitle: string, author: string)

  /** The display shape `Post`: `uid` may be absent, the publication date may be null. */
  datatype Post = Post(uid: Option<string>, first_publication_date: Option<string>, data: PostData)

  /** One page of query results: documents in server order and the URL of the next page, if any. */
  datatype RawPage = RawPage(results: seq<RawPost>, next_page: Option<string>)

  /** The props handed to the page component: `next_page` and the normalised results. */
  datatype PostPagination = PostPagination(next_page: Option<string>, results: seq<Post>)

  /**
   * Projection of one document into the display shape. Writing the result
   * back onto the document changes nothing: every field of the post is the
   * document's own field of the same name.
   */
  function Normalize(raw: RawPost): (p: Post)
    ensures Reattach(p, raw) == raw
  {
    Post(raw.uid, raw.first_publication_date,
         PostData(raw.data.title, raw.data.subtitle, raw.data.author))
  }

  /** The two documents agree on every field the display shape holds. */
  predicate SameDisplayFields(a: RawPost, b: RawPost)
  {
    && a.uid == b.uid
    && a.first_publication_date == b.first_publication_date
    && a.data.title == b.data.title
    && a.data.subtitle == b.data.subtitle
    && a.data.author == b.data.author
  }

  /** The document `doc` with its display fields replaced by those of `p`; everything else kept. */
  function Reattach(p: Post, doc: RawPost): (updated: RawPost)
  {
    doc.(uid := p.uid, first_publication_date := p.first_publication_date,
         data := doc.data.(title := p.data.title, subtitle := p.data.subtitle, author := p.data.author))
  }

  /** Two documents normalise to the same post exactly when they agree on the display fields: nothing else is read. */
  lemma NormalizeReadsOnlyDisplayFields(a: RawPost, b: RawPost)
    ensures Normalize(a) == Normalize(b) <==> SameDisplayFields(a, b)
  {
  }

  /** Every field of a post survives a trip through a document unchanged: nothing is added or altered. */
  lemma NormalizeReattach(p: Post, doc: RawPost)
    ensures Normalize(Reattach(p, doc)) == p
  {
  }

  /** Normalising an already normalised post, whatever other fields surround it, changes nothing. */
  lemma NormalizeIdempotent(raw: RawPost, doc: RawPost)
    ensures Normalize(Reattach(Normalize(raw), doc)) == Normalize(raw)
  {
    NormalizeReattach(Normalize(raw), doc);
  }

  /** `results.map(...)`: one post per document, in the server's order. */
  function NormalizeAll(raws: seq<RawPost>): (posts: seq<Post>)
    ensures |posts| == |raws|
    ensures forall i :: 0 <= i < |raws| ==> posts[i] == Normalize(raws[i])
  {
    if raws == [] then [] else [Normalize(raws[0])] + NormalizeAll(raws[1..])
  }

  /** Normalising two pages one after the other is normalising them joined. */
  lemma NormalizeAllAppend(a: seq<RawPost>, b: seq<RawPost>)
    ensures NormalizeAll(a + b) == NormalizeAll(a) + NormalizeAll(b)
  {
  }

  /** Two pages normalise to the same list exactly when they agree, position by position, on the display fields. */
  lemma NormalizeAllReadsOnlyDisplayFields(a: seq<RawPost>, b: seq<RawPost>)
    ensures NormalizeAll(a) == NormalizeAll(b) <==>
              |a| == |b| && forall i :: 0 <= i < |a| ==> SameDisplayFields(a[i], b[i])
  {
    if NormalizeAll(a) == NormalizeAll(b) {
      forall i | 0 <= i < |a| ensures SameDisplayFields(a[i], b[i]) {
        assert NormalizeAll(a)[i] == NormalizeAll(b)[i];
        NormalizeReadsOnlyDisplayFields(a[i], b[i]);
      }
    }
    if |a| == |b| && forall i :: 0 <= i < |a| ==> SameDisplayFields(a[i], b[i]) {
      forall i | 0 <= i < |a| ensures NormalizeAll(a)[i] == NormalizeAll(b)[i] {
        NormalizeReadsOnlyDisplayFields(a[i], b[i]);
      }
    }
  }

  /** `getStaticProps`: the first page's documents normalised, its cursor passed on as it is. */
  function StaticProps(response: RawPage): (props: PostPagination)
    ensures props.next_page == response.next_page
    ensures |props.results| == |response.results|
    ensures forall i :: 0 <= i < |response.results| ==>
              props.results[i] == Normalize(response.results[i])
  {
    PostPagination(response.next_page, NormalizeAll(response.results))
  }
}
