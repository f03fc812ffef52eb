/** The landing page: the featured slider, the category filter and the blog grid. */
module HomePage {
  import opened Wrappers
  import opened Api
  import opened JsText
  import opened Categories
  import CategoryPage

  /** The filter buttons: `All` and then the six categories. */
  const Filters: seq<string> := ["All"] + Names

  /**
   * The listing request: every blog for `All`, otherwise the category listing under the
   * segment the navigation bar uses for that category.
   */
  function ListUrl(selected: string): (url: string)
    ensures selected == "All" ==> url == LocalApi + "/api/blogs"
    ensures selected != "All" ==> url == LocalApi + "/api/blogs/category/" + Slug(selected)
  {
    if selected == "All" then LocalApi + "/api/blogs"
    else LocalApi + "/api/blogs/category/" + Slug(selected)
  }

  /**
   * A category filter asks for the same listing as the category page reached through that
   * category's link in the navigation bar.
   */
  lemma FilterMatchesCategoryLink(c: string)
    requires c != "All"
    ensures ListUrl(c) == CategoryPage.ListUrl(CategoryPath(c)[|"/category/"|..])
  {
    assert CategoryPath(c)[|"/category/"|..] == Slug(c);
  }

  /** The grid's heading. */
  function Heading(selected: string): (h: string)
    ensures selected == "All" ==> h == "Latest Reviews"
    ensures selected != "All" ==> h == selected + " Reviews"
  {
    if selected == "All" then "Latest Reviews" else selected + " Reviews"
  }

  /** The noun after the post count: singular exactly for one post. */
  function PostNoun(n: nat): (noun: string)
    ensures noun == "post" <==> n == 1
    ensures noun == "post" || noun == "posts"
  {
    if n == 1 then "post" else "posts"
  }

  /** The counter beside the heading: the count in decimal, a space and the noun. */
  function CountText(n: nat): (text: string)
    ensures |text| > |NatToString(n)| && text[|NatToString(n)|] == ' '
    ensures text[..|NatToString(n)|] == NatToString(n)
    ensures DigitsValue(text[..|NatToString(n)|]) == n
    ensures text[|NatToString(n)| + 1..] == PostNoun(n)
  {
    NatToStringValue(n);
    var digits := NatToString(n);
    var text := digits + " " + PostNoun(n);
    assert text[..|digits|] == digits;
    assert text[|digits| + 1..] == PostNoun(n);
    text
  }

  class Page {
    var blogs: seq<Blog>
    var loading: bool
    var selectedCategory: string

    constructor ()
      ensures blogs == [] && loading && selectedCategory == "All"
    {
      blogs := [];
      loading := true;
      selectedCategory := "All";
    }

    /** fetchBlogs up to its await. */
    method BeginFetch() returns (request: Request)
      modifies this
      ensures loading && request == PlainGet(ListUrl(selectedCategory))
      ensures blogs == old(blogs) && selectedCategory == old(selectedCategory)
    {
      loading := true;
      request := PlainGet(ListUrl(selectedCategory));
    }

    /** fetchBlogs after its await: `response.blogs || []`, or `[]` after an error; loading ends. */
    method FinishFetch(response: Fetched<Option<seq<Blog>>>)
      modifies this
      ensures !loading && blogs == BlogsOrEmpty(response) && selectedCategory == old(selectedCategory)
    {
      match response {
        case Received(list) => blogs := list.GetOr([]);
        case Failed(_) => blogs := [];
      }
      loading := false;
    }

    /**
     * A filter button. Choosing the category already selected changes no state, so the
     * effect does not run again; another category starts a new fetch.
     */
    method SelectCategory(c: string) returns (request: Option<Request>)
      modifies this
      ensures c == old(selectedCategory) ==> request == None && loading == old(loading)
      ensures c != old(selectedCategory) ==> request == Some(PlainGet(ListUrl(c))) && loading
      ensures selectedCategory == c && blogs == old(blogs)
    {
      if c == selectedCategory {
        return None;
      }
      selectedCategory := c;
      var r := BeginFetch();
      request := Some(r);
    }

    /** Render order of the grid: loader, then cards of a non-empty list, then the empty message. */
    function Render(): (v: ListView)
      reads this
      ensures loading ==> v == Loader
      ensures !loading && |blogs| > 0 ==> v == Cards(blogs)
      ensures !loading && blogs == [] ==> v == EmptyMessage("No blogs found in this category.")
    {
      if loading then Loader
      else if |blogs| > 0 then Cards(blogs)
      else EmptyMessage("No blogs found in this category.")
    }
  }
}
