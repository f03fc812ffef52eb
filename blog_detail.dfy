/** The page of one blog, looked up by slug, with up to three related posts of its category. */
module BlogDetail {
  import opened Wrappers
  import opened Seqs
  import opened Api
  import opened Categories

  /** `blogs.filter(b => b._id !== current._id)`: the listing without the current post. */
  function Others(blogs: seq<Blog>, current: Blog): seq<Blog> {
    Filter(blogs, (b: Blog) => b.id != current.id)
  }

  /**
   * `blogs.filter(b => b._id !== current._id).slice(0, 3)`: the first three posts of the
   * listing other than the current one (all of them when there are fewer), in the order the
   * category listing gave them.
   */
  function Related(blogs: seq<Blog>, current: Blog): (r: seq<Blog>)
    ensures |r| == if |Others(blogs, current)| < 3 then |Others(blogs, current)| else 3
    ensures r == Others(blogs, current)[..|r|]
    ensures forall k :: 0 <= k < |r| ==> r[k].id != current.id
    ensures IsSubsequence(r, blogs)
    ensures |r| < 3 ==> forall b :: b in blogs && b.id != current.id ==> b in r
  {
    var others := Others(blogs, current);
    var r := Take(others, 3);
    PrefixIsSubsequence(others, |r|);
    assert r == others[..|r|];
    SubsequenceTrans(r, others, blogs);
    r
  }

  /** The slug lookup. */
  function LookupUrl(slug: string): string {
    "/api/blogs/slug/" + slug
  }

  /** The related-posts listing: the category's segment, formed as the navigation bar forms it. */
  function RelatedUrl(b: Blog): string {
    LocalApi + "/api/blogs/category/" + Slug(b.category)
  }

  datatype View = Spinner | NotFound | Content(blog: Blog, related: seq<Blog>)

  class Page {
    /** The `:slug` route parameter; the page stays mounted when it changes. */
    var slug: string
    var blog: Option<Blog>
    var loading: bool
    var related: seq<Blog>

    constructor (slug: string)
      ensures this.slug == slug && blog == None && loading && related == []
    {
      this.slug := slug;
      blog := None;
      loading := true;
      related := [];
    }

    /** Render order: the spinner while loading, then "Blog not found", then the post. */
    function Render(): (v: View)
      reads this
      ensures loading ==> v == Spinner
      ensures !loading && blog.None? ==> v == NotFound
      ensures !loading && blog.Some? ==> v == Content(blog.value, related)
    {
      if loading then Spinner
      else if blog.None? then NotFound
      else Content(blog.value, related)
    }

    /** fetchBlog up to its first await: loading is switched on and the slug is looked up. */
    method BeginFetch() returns (request: Request)
      modifies this
      ensures loading && request == PlainGet(LookupUrl(slug))
      ensures blog == old(blog) && related == old(related) && slug == old(slug)
    {
      loading := true;
      request := PlainGet(LookupUrl(slug));
    }

    /**
     * The address changes to another post while the page stays mounted: the effect keyed on
     * the slug runs fetchBlog again; the same slug runs nothing. The post and the related
     * posts shown so far stay until the new requests settle.
     */
    method Navigate(newSlug: string) returns (request: Option<Request>)
      modifies this
      ensures slug == newSlug && blog == old(blog) && related == old(related)
      ensures newSlug == old(slug) ==> request == None && loading == old(loading)
      ensures newSlug != old(slug) ==> request == Some(PlainGet(LookupUrl(newSlug))) && loading
    {
      if newSlug == slug {
        return None;
      }
      slug := newSlug;
      var r := BeginFetch();
      request := Some(r);
    }

    /**
     * The lookup settled. A response sets `blog` to what it carried; only a returned blog
     * leads to the related request, with loading still on. Otherwise, and after a thrown
     * error (which leaves `blog` as it was), loading ends.
     */
    method LookupDone(response: Fetched<Option<Blog>>) returns (relatedRequest: Option<Request>)
      modifies this
      ensures response.Received? ==> blog == response.body
      ensures response.Failed? ==> blog == old(blog)
      ensures relatedRequest.Some? <==> response.Received? && response.body.Some?
      ensures relatedRequest.Some? ==> relatedRequest.value == PlainGet(RelatedUrl(blog.value)) && loading == old(loading)
      ensures relatedRequest.None? ==> !loading
      ensures related == old(related) && slug == old(slug)
    {
      match response {
        case Received(b) =>
          blog := b;
          if b.Some? {
            relatedRequest := Some(PlainGet(RelatedUrl(b.value)));
            return;
          }
          relatedRequest := None;
        case Failed(_) =>
          relatedRequest := None;
      }
      loading := false;
    }

    /**
     * The related listing settled: its blogs give the related posts; a response without a
     * list (the `filter` call throws) or a thrown error keeps the previous ones. Loading ends.
     */
    method RelatedDone(response: Fetched<Option<seq<Blog>>>)
      requires blog.Some?
      modifies this
      ensures !loading && blog == old(blog) && slug == old(slug)
      ensures response.Received? && response.body.Some? ==> related == Related(response.body.value, blog.value)
      ensures !(response.Received? && response.body.Some?) ==> related == old(related)
    {
      if response.Received? && response.body.Some? {
        related := Related(response.body.value, blog.value);
      }
      loading := false;
    }
  }

  /**
   * Moving from post `a` to post `b`, one of `a`'s related posts, when the second related
   * request throws: the catch keeps `a`'s related posts, so `b` is shown among its own
   * related posts.
   */
  method StaleRelatedAfterNavigate(a: Blog, b: Blog, slugA: string, slugB: string)
      returns (view: View)
    requires a.id != b.id && slugA != slugB
    ensures view == Content(b, [b])
  {
    var page := new Page(slugA);
    var _ := page.BeginFetch();
    var _ := page.LookupDone(Received(Some(a)));
    page.RelatedDone(Received(Some([a, b])));
    assert [a, b][1..] == [b];
    assert page.related == [b];
    var _ := page.Navigate(slugB);
    var _ := page.LookupDone(Received(Some(b)));
    page.RelatedDone(Failed(None));
    view := page.Render();
  }
}
