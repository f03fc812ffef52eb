/** The search results page at `/search?q=<query>`. */
module SearchPage {
  import opened Wrappers
  import opened Api
  import opened JsText

  /** The `q` parameter of the address, or `""` when it is absent. */
  function QueryOf(params: map<string, string>): (query: string)
    ensures "q" in params ==> query == params["q"]
    ensures "q" !in params ==> query == ""
  {
    if "q" in params then params["q"] else ""
  }

  /** The search endpoint, up to the encoded term. */
  const SearchPrefix := LocalApi + "/api/blogs/search?q="

  /** The search request for a term: the endpoint followed by the percent-encoded term. */
  function SearchUrl(term: string): (url: string)
    ensures |url| >= |SearchPrefix| && url[..|SearchPrefix|] == SearchPrefix
    ensures url[|SearchPrefix|..] == EncodeUriComponent(term)
  {
    var url := SearchPrefix + EncodeUriComponent(term);
    assert url[..|SearchPrefix|] == SearchPrefix;
    url
  }

  class Page {
    /** The query read from the address on the latest render. */
    var query: string
    var blogs: seq<Blog>
    var loading: bool
    var searchTerm: string

    constructor (params: map<string, string>)
      ensures query == QueryOf(params) && blogs == [] && loading && searchTerm == ""
    {
      query := QueryOf(params);
      blogs := [];
      loading := true;
      searchTerm := "";
    }

    /**
     * The effect keyed on the query: the input box takes the query, and a non-empty query
     * starts searchBlogs while an empty one clears the results and sends nothing.
     */
    method QueryEffect() returns (request: Option<Request>)
      modifies this
      ensures searchTerm == query && query == old(query)
      ensures query == "" ==> request == None && blogs == [] && !loading
      ensures query != "" ==> request == Some(PlainGet(SearchUrl(query))) && loading && blogs == old(blogs)
    {
      searchTerm := query;
      if query != "" {
        loading := true;
        request := Some(PlainGet(SearchUrl(query)));
      } else {
        blogs := [];
        loading := false;
        request := None;
      }
    }

    /**
     * The address changes while the page stays mounted: the effect runs again only when the
     * query it depends on is different.
     */
    method Navigate(params: map<string, string>) returns (request: Option<Request>)
      modifies this
      ensures query == QueryOf(params)
      ensures QueryOf(params) == old(query) ==> request == None && unchanged(this)
      ensures QueryOf(params) != old(query) ==> searchTerm == query
      ensures QueryOf(params) != old(query) && query == "" ==> request == None && blogs == [] && !loading
      ensures QueryOf(params) != old(query) && query != "" ==>
                request == Some(PlainGet(SearchUrl(query))) && loading && blogs == old(blogs)
    {
      var q := QueryOf(params);
      if q == query {
        return None;
      }
      query := q;
      request := QueryEffect();
    }

    /** searchBlogs after its await: `response.blogs || []`, `[]` after an error; loading ends. */
    method FinishSearch(response: Fetched<Option<seq<Blog>>>)
      modifies this
      ensures !loading && blogs == BlogsOrEmpty(response)
      ensures query == old(query) && searchTerm == old(searchTerm)
    {
      match response {
        case Received(list) => blogs := list.GetOr([]);
        case Failed(_) => blogs := [];
      }
      loading := false;
    }

    /** Typing into the search box. */
    method SetSearchTerm(text: string)
      modifies this
      ensures searchTerm == text && query == old(query) && blogs == old(blogs) && loading == old(loading)
    {
      searchTerm := text;
    }

    /**
     * Submitting the form: a full page load of the search address for the untrimmed term,
     * but only when the trimmed term is not blank.
     */
    function HandleSearch(): (navigate: Option<string>)
      reads this
      ensures navigate.Some? <==> !AllSpace(searchTerm)
      ensures navigate.Some? ==> navigate.value == "/search?q=" + EncodeUriComponent(searchTerm)
    {
      TrimBlankIff(searchTerm);
      if Trim(searchTerm) != "" then Some("/search?q=" + EncodeUriComponent(searchTerm)) else None
    }

    /** The line under the form, shown only for a non-empty query. */
    function Summary(): (line: Option<string>)
      reads this
      ensures line.Some? <==> query != ""
      ensures line.Some? && loading ==> line.value == "Searching..."
      ensures line.Some? && !loading ==>
                line.value == "Found " + NatToString(|blogs|) + " results for \"" + query + "\""
    {
      if query == "" then None
      else if loading then Some("Searching...")
      else Some("Found " + NatToString(|blogs|) + " results for \"" + query + "\"")
    }

    /**
     * Render order: the loader, the cards of non-empty results, the "No results" message for
     * a non-empty query, and otherwise nothing.
     */
    function Render(): (v: ListView)
      reads this
      ensures loading ==> v == Loader
      ensures !loading && |blogs| > 0 ==> v == Cards(blogs)
      ensures !loading && blogs == [] && query != "" ==>
                v == EmptyMessage("No results found for \"" + query + "\".")
      ensures !loading && blogs == [] && query == "" ==> v == NoContent
    {
      if loading then Loader
      else if |blogs| > 0 then Cards(blogs)
      else if query != "" then EmptyMessage("No results found for \"" + query + "\".")
      else NoContent
    }
  }

  /** Opening the page without a query ends at once with nothing shown and no request sent. */
  method OpenWithoutQuery(params: map<string, string>) returns (request: Option<Request>, view: ListView)
    requires "q" !in params || params["q"] == ""
    ensures request == None && view == NoContent
  {
    var page := new Page(params);
    request := page.QueryEffect();
    view := page.Render();
  }
}
