/** The site's navigation bar: category links, the search box, the login state and the mobile menu. */
module Navbar {
  import opened Wrappers
  import opened Seqs
  import opened JsText
  import opened Categories
  import Session

  /** The search navigation: the query as typed, percent-encoded. */
  function SearchPath(query: string): (path: string)
    ensures |path| >= 10 && path[..10] == "/search?q="
    ensures path[10..] == EncodeUriComponent(query)
    ensures forall k :: 10 <= k < |path| ==> IsUriUnreserved(path[k]) || path[k] == '%'
  {
    "/search?q=" + EncodeUriComponent(query)
  }

  /** The category links, in menu order: one per category, all leading to different paths. */
  function CategoryLinks(): (links: seq<string>)
    ensures |links| == |Names|
    ensures forall k :: 0 <= k < |links| ==> links[k] == CategoryPath(Names[k])
    ensures NoDup(links)
  {
    PathsDistinct();
    seq(|Names|, k requires 0 <= k < |Names| => CategoryPath(Names[k]))
  }

  class Bar {
    var isMenuOpen: bool
    var searchQuery: string
    var isLoggedIn: bool

    constructor ()
      ensures !isMenuOpen && searchQuery == "" && !isLoggedIn
    {
      isMenuOpen := false;
      searchQuery := "";
      isLoggedIn := false;
    }

    /** The mount effect: logged in exactly when a token is present. */
    method Mount(jar: Session.CookieJar)
      modifies this
      ensures isLoggedIn == jar.HasToken()
      ensures isMenuOpen == old(isMenuOpen) && searchQuery == old(searchQuery)
    {
      isLoggedIn := jar.HasToken();
    }

    /** Typing in the search box. */
    method SetSearchQuery(text: string)
      modifies this
      ensures searchQuery == text && isMenuOpen == old(isMenuOpen) && isLoggedIn == old(isLoggedIn)
    {
      searchQuery := text;
    }

    /**
     * handleSearch: when the query is not blank after trimming, navigate to the search page
     * with the UNtrimmed query and clear the box; a blank query changes nothing.
     */
    method HandleSearch() returns (navigate: Option<string>)
      modifies this
      ensures Trim(old(searchQuery)) != "" ==> navigate == Some(SearchPath(old(searchQuery))) && searchQuery == ""
      ensures Trim(old(searchQuery)) == "" ==> navigate == None && searchQuery == old(searchQuery)
      ensures isMenuOpen == old(isMenuOpen) && isLoggedIn == old(isLoggedIn)
    {
      if Trim(searchQuery) != "" {
        navigate := Some(SearchPath(searchQuery));
        searchQuery := "";
      } else {
        navigate := None;
      }
    }

    /** handleLogout: the token is removed, the bar shows the login link, and the user goes home. */
    method HandleLogout(jar: Session.CookieJar) returns (navigate: string)
      modifies this, jar
      ensures jar.token == None && !isLoggedIn && navigate == "/"
      ensures isMenuOpen == old(isMenuOpen) && searchQuery == old(searchQuery)
    {
      jar.Remove();
      isLoggedIn := false;
      navigate := "/";
    }

    /** The mobile menu button. */
    method ToggleMenu()
      modifies this
      ensures isMenuOpen == !old(isMenuOpen)
      ensures searchQuery == old(searchQuery) && isLoggedIn == old(isLoggedIn)
    {
      isMenuOpen := !isMenuOpen;
    }
  }
}
