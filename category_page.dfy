/** The page listing one category's blogs, reached through `/category/<segment>`. */
module CategoryPage {
  import opened Wrappers
  import opened Api
  import opened Categories

  /** The listing request for a URL segment, passed on as it came. */
  function ListUrl(segment: string): string {
    LocalApi + "/api/blogs/category/" + segment
  }

  class Page {
    /** The `:category` route parameter; the page stays mounted when it changes. */
    var segment: string
    var blogs: seq<Blog>
    var loading: bool

    constructor (segment: string)
      ensures this.segment == segment && blogs == [] && loading
    {
      this.segment := segment;
      blogs := [];
      loading := true;
    }

    /** `categoryName`, the title shown above the listing. */
    function CategoryName(): string
      reads this
    {
      DisplayName(segment)
    }

    /** fetchCategoryBlogs up to its await. */
    method BeginFetch() returns (request: Request)
      modifies this
      ensures loading && blogs == old(blogs) && segment == old(segment)
      ensures request == PlainGet(ListUrl(segment))
    {
      loading := true;
      request := PlainGet(ListUrl(segment));
    }

    /**
     * The address changes to another category while the page stays mounted: the effect
     * keyed on the segment runs fetchCategoryBlogs again; the same segment runs nothing. The
     * previous listing stays until the new request settles.
     */
    method Navigate(newSegment: string) returns (request: Option<Request>)
      modifies this
      ensures segment == newSegment && blogs == old(blogs)
      ensures newSegment == old(segment) ==> request == None && loading == old(loading)
      ensures newSegment != old(segment) ==> request == Some(PlainGet(ListUrl(newSegment))) && loading
    {
      if newSegment == segment {
        return None;
      }
      segment := newSegment;
      var r := BeginFetch();
      request := Some(r);
    }

    /**
     * fetchCategoryBlogs after its await: the response's list, or `[]` when it has none or
     * the request threw. Loading ends on every path.
     */
    method FinishFetch(response: Fetched<Option<seq<Blog>>>)
      modifies this
      ensures !loading && blogs == BlogsOrEmpty(response) && segment == old(segment)
    {
      match response {
        case Received(list) => blogs := list.GetOr([]);
        case Failed(_) => blogs := [];
      }
      loading := false;
    }

    /**
     * Render order: the loader while loading, the cards of a non-empty list, and otherwise
     * the "No blogs found" message naming the category.
     */
    function Render(): (v: ListView)
      reads this
      ensures loading ==> v == Loader
      ensures !loading && |blogs| > 0 ==> v == Cards(blogs)
      ensures !loading && blogs == [] ==>
                v == EmptyMessage("No blogs found in the " + CategoryName() + " category.")
    {
      if loading then Loader
      else if |blogs| > 0 then Cards(blogs)
      else EmptyMessage("No blogs found in the " + CategoryName() + " category.")
    }
  }

  /**
   * Whatever segment the URL holds, a request that fails or returns no list ends in the
   * empty-category message, never in an error.
   */
  method UnknownCategoryShowsMessage(segment: string, response: Fetched<Option<seq<Blog>>>)
      returns (view: ListView)
    requires response.Failed? || response.body.None? || response.body == Some([])
    ensures view == EmptyMessage("No blogs found in the " + DisplayName(segment) + " category.")
  {
    var page := new Page(segment);
    var _ := page.BeginFetch();
    page.FinishFetch(response);
    view := page.Render();
  }
}
