/** The admin dashboard: its sidebar, the statistics overview and logout. */
module DashboardPage {
  import opened Wrappers
  import opened Api
  import opened Session
  import opened JsText

  /** The sidebar's links. */
  datatype Link = Overview | AllBlogs | AddNew

  /** isActive: the pathname contains the fragment somewhere. */
  function IsActive(pathname: string, fragment: string): (active: bool)
    ensures active <==> exists i :: OccursAt(pathname, fragment, i)
  {
    IncludesIff(pathname, fragment);
    Includes(pathname, fragment)
  }

  /** Whether a sidebar link is highlighted: Overview by equality, the others by fragment. */
  function LinkActive(pathname: string, link: Link): (active: bool)
    ensures link == Overview ==> (active <==> pathname == "/dashboard")
    ensures link == AllBlogs ==> (active <==> exists i :: OccursAt(pathname, "blogs", i))
    ensures link == AddNew ==> (active <==> exists i :: OccursAt(pathname, "new", i))
  {
    match link
    case Overview => pathname == "/dashboard"
    case AllBlogs => IsActive(pathname, "blogs")
    case AddNew => IsActive(pathname, "new")
  }

  /** On the new-blog page both "All Blogs" and "Add New Blog" are highlighted, Overview is not. */
  lemma NewBlogPageLinks()
    ensures LinkActive("/dashboard/blogs/new", AllBlogs)
    ensures LinkActive("/dashboard/blogs/new", AddNew)
    ensures !LinkActive("/dashboard/blogs/new", Overview)
  {
    var p := "/dashboard/blogs/new";
    assert OccursAt(p, "blogs", 11) by { assert p[11..16] == "blogs"; }
    assert OccursAt(p, "new", 17) by { assert p[17..20] == "new"; }
  }

  /** Overview is exact: below the dashboard root, or with a trailing slash, it is not active. */
  lemma OverviewIsExact(pathname: string)
    requires |pathname| > |"/dashboard"| && pathname[..|"/dashboard"|] == "/dashboard"
    ensures !LinkActive(pathname, Overview)
    ensures exists i :: OccursAt(pathname, "/dashboard", i)
  {
    assert OccursAt(pathname, "/dashboard", 0);
  }

  /** The overview's counters. */
  datatype Stats = Stats(totalBlogs: int, totalViews: int, totalCategories: int)

  const ZeroStats := Stats(0, 0, 0)

  /** fetchStats's request, with the cookie's token as bearer. */
  function StatsRequest(token: Option<string>): (r: Request)
    ensures r.verb == Get && r.url == LocalApi + "/api/admin/stats"
    ensures r.authorization == Some(Bearer(token)) && r.body == []
  {
    Request(Get, LocalApi + "/api/admin/stats", Some(Bearer(token)), [])
  }

  class Page {
    var stats: Stats

    constructor ()
      ensures stats == ZeroStats
    {
      stats := ZeroStats;
    }

    /** fetchStats after its await: the response's stats replace the counters; an error keeps them. */
    method StatsLoaded(response: Fetched<Stats>)
      modifies this
      ensures response.Received? ==> stats == response.body
      ensures response.Failed? ==> stats == old(stats)
    {
      match response {
        case Received(s) => stats := s;
        case Failed(_) =>
      }
    }

    /** Logout: the token is removed and the browser loads the home page. */
    method HandleLogout(jar: CookieJar) returns (navigate: string)
      modifies jar
      ensures jar.token == None && !jar.HasToken() && navigate == "/"
    {
      jar.Remove();
      navigate := "/";
    }
  }

  /** A failed statistics request leaves the counters at zero. */
  method FailedStatsStayZero(message: Option<string>) returns (stats: Stats)
    ensures stats == ZeroStats
  {
    var page := new Page();
    page.StatsLoaded(Failed(message));
    stats := page.stats;
  }
}
