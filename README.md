# Affiliate review blog front end, modelled in Dafny

The system is the browser side of a product-review blog with affiliate links. Visitors see
a home page with a featured slider and a category filter, one page per category, a search
page and a page per post with related posts. An administrator signs in, passes a route
guard and, in the dashboard, writes and edits posts in a form with tags and an image.

This project models the sequential rules in those pages and components, and proves what they
promise:

- adding or removing a tag in the editor keeps a duplicate-free, trimmed tag list (the tags
  of a loaded record are taken as stored);
- a save sends each text field and the tags once, and the image only when one was chosen,
  with the tags as JSON text that reads back as the list;
- the editor keeps its state when its route changes, so following "Add New Blog" while
  editing a record posts that record as a new blog (`BlogEditor.StaleCreateForm`);
- next, previous and the timer keep the slider cursor in range, and each step has an inverse;
- the route guard ends authorized exactly when the server accepts the token, and drops a
  rejected token;
- a category's URL segment and its display name round-trip for the six fixed categories,
  and their links are pairwise distinct;
- the related posts a listing gives (`BlogDetail.Related`) are the first three others and
  never the current post; a post page that moves to another post keeps the previous
  related posts when the new related request throws, so the new post can then appear among
  its own related posts (`BlogDetail.StaleRelatedAfterNavigate`);
- each page maps its fetch outcome to its loading flag and its view in a fixed order;
- the dashboard highlights its sidebar links by substring, except Overview.

Each component whose state the code updates is a `class`. Its fields are the component's
state variables and its methods are the event handlers. An `async` handler is split at its
`await` into a `Begin…` method and a `Finish…` method. The first returns the request it
would send. The second takes the outcome of that request as a `Fetched` value: a body, or a
thrown error. This makes the "loading while the request is out" state visible. The pure
expressions are functions and are given their own lemmas. `Trim`, `toLowerCase`, `replace`
with a string pattern, `includes`, `encodeURIComponent` and `JSON.stringify` on a list of
strings are modelled in the modules `JsText` and `JsonTags`.

Modules: `Wrappers`, `Seqs`, `JsText`, `JsonTags`, `Api`, `Session` (shared), and one per
component or page: `Categories`, `BlogEditor`, `FeaturedSlider`, `ProtectedRoute`,
`BlogDetail`, `Navbar`, `CategoryPage`, `HomePage`, `SearchPage`, `DashboardPage`.

Notes on the code:

- The editor does not require the rich-text content. Only the title, category and
  description inputs carry `required`.
- Several pages call the absolute base `http://localhost:5000`, others the relative `/api`
  prefix. The model keeps each URL as written (`Api.LocalApi`).

## Model

| member | source | states |
|---|---|---|
| Seqs.Filter | src/components/BlogEditor.jsx:111 | `filter`: only kept elements, each kept element keeps its count, dropped ones have count 0, and the result is an order-preserving subsequence |
| Seqs.Take | src/components/FeaturedSlider.jsx:8 | `slice(0, n)`: length `min(n, \|s\|)`, and element by element the front of `s` |
| Seqs.SubsequenceNoDup | src/components/BlogEditor.jsx:111 | a subsequence of a duplicate-free list is duplicate-free |
| Seqs.SubsequenceTrans | src/pages/BlogDetail.jsx:43 | a subsequence of a subsequence is a subsequence, so slicing a filtered list keeps the order of the original |
| JsText.Trim | src/components/BlogEditor.jsx:99 | `trim()`: a contiguous piece of the input that neither starts nor ends with ECMAScript white space or a line terminator |
| JsText.TrimBlankIff | src/components/Navbar.jsx:35 | the trimmed text is empty (falsy) exactly when every character is white space |
| JsText.TrimIdempotent | src/components/BlogEditor.jsx:99-102 | trimming an already trimmed tag changes nothing |
| JsText.ToLower | src/components/Navbar.jsx:70 | `toLowerCase()`: same length, each character lower-cased |
| JsText.IndexOf | src/components/Navbar.jsx:70 | the position `replace` with a one-character pattern acts on: the first occurrence, or -1 when there is none |
| JsText.ReplaceFirst | src/pages/Category.jsx:29 | `replace(pat, rep)` with a string pattern: only the first occurrence is replaced and all other characters are kept |
| JsText.IncludesIff | src/pages/Dashboard.jsx:40 | `includes(p)` holds exactly when `p` occurs at some position |
| JsText.NatToString | src/pages/Home.jsx:70 | the decimal rendering of a count: only digits, no leading zero |
| JsText.NatToStringValue | src/pages/Home.jsx:70 | the rendered digits read back as the count |
| JsText.EncodeUriComponent | src/components/Navbar.jsx:36 | `encodeURIComponent`: only unreserved characters and `%` escapes; unreserved-only text is unchanged |
| JsonTags.EncodeTags | src/components/BlogEditor.jsx:125 | `JSON.stringify(tags)` is a bracketed array text |
| JsonTags.TagsRoundTrip | src/components/BlogEditor.jsx:125 | decoding the JSON text of any tag list, escapes included, gives back that list |
| Api.Bearer | src/components/ProtectedRoute.jsx:22 | `Bearer ${token}` with the token, or with `undefined` when no cookie is set |
| Api.BlogsOrEmpty | src/pages/Home.jsx:26-29 | `response.data.blogs \|\| []` on a response and `[]` from the `catch` |
| Api.MessageOr | src/components/BlogEditor.jsx:148 | the server's message when it is present and non-empty, else the fallback |
| Session.CookieJar.Remove | src/components/ProtectedRoute.jsx:29 | `Cookies.remove('token')`: no token afterwards |
| Categories.Slug | src/components/Navbar.jsx:70 | same length; the first space, and only that one, becomes `-`; every other character is lower-cased |
| Categories.CapitalizeWords | src/pages/Category.jsx:29 | `replace(/\b\w/g, toUpperCase)`: exactly the characters that start a word are upper-cased |
| Categories.UnhyphenSlug | src/pages/Category.jsx:29 | for a name without `-`, replacing the slug's first `-` gives back the lower-cased name |
| Categories.DisplayNameOfSlug | src/pages/Category.jsx:29 | round trip: for an ASCII title-case name, the category title of its segment is that name |
| Categories.NamesAreTitleCase | src/components/Navbar.jsx:7-14 | each of the six names is title case without a hyphen |
| Categories.NamesRoundTrip | src/components/Navbar.jsx:7-14 | for the six names, the category page's title of the navigation segment is the name itself |
| Categories.NamesDistinct | src/components/Navbar.jsx:7-14 | the six names are pairwise different |
| Categories.PathDetermines | src/components/Navbar.jsx:70 | two ASCII title-case names with the same link path are equal |
| Categories.PathsDistinct | src/components/Navbar.jsx:67-75 | the six category links lead to six different paths |
| BlogEditor.KeyInjective | src/components/BlogEditor.jsx:123 | each form key names exactly one field |
| BlogEditor.AddTagTo | src/components/BlogEditor.jsx:98-106 | the list grows by one exactly when the trimmed input is non-empty and not yet a tag; then the trimmed input is appended and the input cleared; otherwise both are unchanged; the old tags stay a prefix |
| BlogEditor.AddTagBlank | src/components/BlogEditor.jsx:99 | blank or white-space-only input changes neither the tags nor the input |
| BlogEditor.AddTagDuplicate | src/components/BlogEditor.jsx:99 | input that trims to an existing tag changes nothing |
| BlogEditor.AddTagInvariant | src/components/BlogEditor.jsx:99-102 | adding a tag keeps the list duplicate-free and trimmed |
| BlogEditor.RemoveTagFrom | src/components/BlogEditor.jsx:108-113 | the removed tag is gone, every other tag keeps its count, and the survivors keep their order |
| BlogEditor.RemoveTagInvariant | src/components/BlogEditor.jsx:108-113 | removing a tag keeps the list duplicate-free and trimmed |
| BlogEditor.FormOf | src/components/BlogEditor.jsx:50-59 | record to form: a missing price or affiliate link becomes `''`, missing tags become `[]`, no image file is chosen |
| BlogEditor.ValuesOfEntries | src/components/BlogEditor.jsx:123-131 | with distinct keys, the body holds each listed field's expected value under its key and nothing for an unlisted one |
| BlogEditor.SubmissionContents | src/components/BlogEditor.jsx:123-131 | each text field appears once with its value as typed; `tags` appears once as JSON text that decodes to the tag list; `image` appears only when a file was chosen |
| BlogEditor.BuildSubmission | src/components/BlogEditor.jsx:121-131 | the `forEach` loop builds exactly the body `Submission` describes |
| BlogEditor.AppendEntries | src/components/BlogEditor.jsx:123-131 | appending the entries for a list of form keys in order, with the three-way choice on `tags`, `image` and the rest, builds exactly what `EntriesFor` gives for that list |
| BlogEditor.SaveTarget | src/components/BlogEditor.jsx:133-134 | PUT `/api/admin/blogs/{id}` when an id is present, otherwise POST `/api/admin/blogs` |
| BlogEditor.EditRoundTrip | src/components/BlogEditor.jsx:50-59 | saving a loaded record unchanged sends back its title, description, content, category, price and affiliate link (with the `''` defaults) once each, its tags once as JSON text that decodes to the stored list, and no image |
| BlogEditor.Editor.constructor | src/components/BlogEditor.jsx:11-23 | empty form, empty tag input, not loading, empty preview |
| BlogEditor.Editor.HandleChange | src/components/BlogEditor.jsx:67-80 | sets the changed field and leaves every other field and the rest of the state unchanged |
| BlogEditor.Editor.HandleImageChange | src/components/BlogEditor.jsx:82-96 | a chosen file replaces the image; no file changes nothing; the preview is left to the FileReader |
| BlogEditor.Editor.RemoveImage | src/components/BlogEditor.jsx:294-297 | the preview is cleared and a save then sends no image |
| BlogEditor.Editor.SetTagInput | src/components/BlogEditor.jsx:332 | sets the tag input; the form, the loading flag and the image preview are unchanged |
| BlogEditor.Editor.AddTag | src/components/BlogEditor.jsx:98-106 | applies `AddTagTo` to the tags and the input; the rest of the form is unchanged; the tags stay duplicate-free and trimmed |
| BlogEditor.Editor.RemoveTag | src/components/BlogEditor.jsx:108-113 | applies `RemoveTagFrom`; the rest is unchanged; the tags stay duplicate-free and trimmed |
| BlogEditor.Editor.LoadRequest | src/components/BlogEditor.jsx:45-48 | GET `/api/admin/blogs/{id}` with the bearer header |
| BlogEditor.Editor.LoadRecord | src/components/BlogEditor.jsx:49-64 | a returned record fills the form (`FormOf`) and the preview; otherwise an "Error fetching blog" toast and navigation to the list, with the form unchanged |
| BlogEditor.Editor.Navigate | src/components/BlogEditor.jsx:37-41 | a changed id reruns the effect, which requests the record only for an editing id; the same id sends nothing; the form, tag input, preview and loading flag stay |
| BlogEditor.StaleCreateForm | src/components/BlogEditor.jsx:37-141 | after loading a record and moving to the create route, a save POSTs the loaded record's form to the collection |
| BlogEditor.Editor.BeginSubmit | src/components/BlogEditor.jsx:115-141 | a request is sent exactly when no save is in flight (the submit button is `disabled={loading}`), the required fields are filled and the browser accepts the URL and number inputs; loading is then on and the save request carries the target, the bearer header and the full body; a blocked submit changes nothing |
| BlogEditor.Editor.FinishSubmit | src/components/BlogEditor.jsx:143-151 | `success` shows the created/updated toast and goes to the list; `success:false` does nothing; an error shows the server message or "Error saving blog"; loading ends false on every path |
| FeaturedSlider.Featured | src/components/FeaturedSlider.jsx:8 | the first `min(5, \|blogs\|)` blogs, in order |
| FeaturedSlider.Next | src/components/FeaturedSlider.jsx:25-27 | `(i+1) % n` stays in `[0, n)`: one slide on, wrapping from the last to the first |
| FeaturedSlider.Prev | src/components/FeaturedSlider.jsx:29-31 | `(i-1+n) % n` stays in `[0, n)`: one slide back, wrapping from the first to the last |
| FeaturedSlider.PrevNextInverse | src/components/FeaturedSlider.jsx:25-31 | previous after next, and next after previous, give the original index |
| FeaturedSlider.Advance | src/components/FeaturedSlider.jsx:11-13 | any number of timer steps stays in range |
| FeaturedSlider.AdvanceWithin | src/components/FeaturedSlider.jsx:11-13 | short of the last slide, `k` steps add `k` |
| FeaturedSlider.AdvanceSplit | src/components/FeaturedSlider.jsx:11-13 | steps compose |
| FeaturedSlider.FullCycle | src/components/FeaturedSlider.jsx:11-13 | after `n` steps the slider is back at its start |
| FeaturedSlider.Slider.constructor | src/components/FeaturedSlider.jsx:7-8 | the index starts at 0 over the featured list |
| FeaturedSlider.Slider.ReceiveBlogs | src/components/FeaturedSlider.jsx:6-8 | a new list is sliced again and the index is not reset; the cursor is valid exactly when the list is empty or the index is still in range |
| FeaturedSlider.Slider.NextSlide | src/components/FeaturedSlider.jsx:25-27 | the index becomes `Next` of the old one and stays valid |
| FeaturedSlider.Slider.PrevSlide | src/components/FeaturedSlider.jsx:29-31 | the index becomes `Prev` of the old one and stays valid |
| FeaturedSlider.Slider.Tick | src/components/FeaturedSlider.jsx:11-13 | the timer applies the same step as `NextSlide` |
| FeaturedSlider.Slider.ClickDot | src/components/FeaturedSlider.jsx:107 | the index becomes `k`, and only dot `k` is active |
| FeaturedSlider.Slider.Dots | src/components/FeaturedSlider.jsx:104-110 | one dot per featured blog; a dot is active exactly at the current index |
| FeaturedSlider.Slider.View | src/components/FeaturedSlider.jsx:33-35 | nothing for an empty list, otherwise the current blog |
| FeaturedSlider.OneActiveDot | src/components/FeaturedSlider.jsx:104-112 | with at least one blog, exactly one dot is active |
| ProtectedRoute.Guard.constructor | src/components/ProtectedRoute.jsx:7-8 | `isAuthenticated` null and loading, which renders the spinner |
| ProtectedRoute.Guard.Render | src/components/ProtectedRoute.jsx:42-50 | the spinner while loading; after that, the children exactly when authenticated, else a redirect to `/login` |
| ProtectedRoute.Guard.BeginVerify | src/components/ProtectedRoute.jsx:12-23 | no token: unauthenticated, not loading, no request; a token: the verify request with its bearer header |
| ProtectedRoute.Guard.FinishVerify | src/components/ProtectedRoute.jsx:25-36 | `success` authenticates and keeps the token; `success:false` or an error leaves the guard unauthenticated and removes the token; loading ends false |
| ProtectedRoute.Mount | src/components/ProtectedRoute.jsx:10-40 | a whole check: without a token there is no request, a redirect and the cookie is left as it was; with one there is exactly one request, then the children on acceptance, or a redirect with the token removed |
| BlogDetail.Related | src/pages/BlogDetail.jsx:43 | exactly the first min(3, n) of the n posts whose `_id` differs from the current post's, in listing order; none is the current post; fewer than 3 only when no other post was left out |
| BlogDetail.Page.constructor | src/pages/BlogDetail.jsx:9-12 | no blog, loading, no related posts |
| BlogDetail.Page.Render | src/pages/BlogDetail.jsx:60-79 | the spinner while loading, else "Blog not found" without a blog, else the post with its related posts |
| BlogDetail.Page.BeginFetch | src/pages/BlogDetail.jsx:36-37 | loading is on and the slug lookup is sent |
| BlogDetail.Page.LookupDone | src/pages/BlogDetail.jsx:38-49 | the response sets the blog; only a returned blog leads to the related request, on the category's slug; otherwise loading ends |
| BlogDetail.Page.RelatedDone | src/pages/BlogDetail.jsx:42-49 | a listing gives `Related` of it; a missing listing or an error keeps the old related posts; loading ends false |
| BlogDetail.Page.Navigate | src/pages/BlogDetail.jsx:14-17 | a new slug on the mounted page reruns the lookup with loading on; the same slug sends nothing; the shown post and related posts stay until the requests settle |
| BlogDetail.StaleRelatedAfterNavigate | src/pages/BlogDetail.jsx:14-49 | from post a to post b, one of a's related posts, with the second related request throwing: the page shows b with a's related list, which is [b] |
| Navbar.SearchPath | src/components/Navbar.jsx:36 | `/search?q=` followed by `encodeURIComponent` of the query, so URL-safe characters only |
| Navbar.CategoryLinks | src/components/Navbar.jsx:67-75 | one link per category in menu order, each the category's path, all different |
| Navbar.Bar.constructor | src/components/Navbar.jsx:17-19 | menu closed, empty query, logged out |
| Navbar.Bar.Mount | src/components/Navbar.jsx:22-24 | logged in exactly when a token is present |
| Navbar.Bar.SetSearchQuery | src/components/Navbar.jsx:85 | sets the query only |
| Navbar.Bar.HandleSearch | src/components/Navbar.jsx:33-39 | navigates only when the trimmed query is non-empty, with the untrimmed query encoded, and then clears the query; otherwise nothing changes |
| Navbar.Bar.HandleLogout | src/components/Navbar.jsx:41-45 | the token is removed, logged out, navigation to `/` |
| Navbar.Bar.ToggleMenu | src/components/Navbar.jsx:122 | flips the menu and nothing else |
| CategoryPage.Page.constructor | src/pages/Category.jsx:8-10 | no blogs and loading |
| CategoryPage.Page.BeginFetch | src/pages/Category.jsx:16-19 | loading is on and the listing of the segment as given is requested |
| CategoryPage.Page.FinishFetch | src/pages/Category.jsx:20-26 | blogs become `BlogsOrEmpty` of the outcome and loading ends false |
| CategoryPage.Page.Navigate | src/pages/Category.jsx:12-14 | a new segment on the mounted page reruns the listing request with loading on; the same segment sends nothing; the shown blogs stay until it settles |
| CategoryPage.Page.Render | src/pages/Category.jsx:43-59 | the loader, else the cards of a non-empty list, else "No blogs found in the {name} category." |
| CategoryPage.UnknownCategoryShowsMessage | src/pages/Category.jsx:12-26 | whatever the segment, a failed or empty listing ends in the empty-category message, not an error |
| HomePage.ListUrl | src/pages/Home.jsx:21-23 | `All` requests every blog; any other category requests its listing under the navigation bar's slug |
| HomePage.FilterMatchesCategoryLink | src/pages/Home.jsx:23 | a filter button requests the same listing as the category page reached through the navigation link |
| HomePage.Heading | src/pages/Home.jsx:67 | "Latest Reviews" for `All`, else "{category} Reviews" |
| HomePage.PostNoun | src/pages/Home.jsx:70 | "post" exactly when the count is 1, otherwise "posts" |
| HomePage.CountText | src/pages/Home.jsx:70 | the count in decimal, which reads back as the count, then a space and the noun |
| HomePage.Page.constructor | src/pages/Home.jsx:8-10 | no blogs, loading, `All` selected |
| HomePage.Page.BeginFetch | src/pages/Home.jsx:18-25 | loading is on and the selected category's listing is requested |
| HomePage.Page.FinishFetch | src/pages/Home.jsx:26-32 | blogs become `BlogsOrEmpty` of the outcome and loading ends false |
| HomePage.Page.SelectCategory | src/pages/Home.jsx:14-16 | choosing the selected category again sends nothing; another one is selected and fetched |
| HomePage.Page.Render | src/pages/Home.jsx:74-88 | the loader, else the cards of a non-empty list, else "No blogs found in this category." |
| SearchPage.QueryOf | src/pages/Search.jsx:12 | the `q` parameter, or `''` when absent |
| SearchPage.SearchUrl | src/pages/Search.jsx:27 | the search endpoint followed by the encoded term |
| SearchPage.Page.constructor | src/pages/Search.jsx:8-12 | the query from the address, no blogs, loading, empty search box |
| SearchPage.Page.QueryEffect | src/pages/Search.jsx:14-22 | the search box takes the query; an empty query gives no blogs, not loading and no request; otherwise loading and one search request |
| SearchPage.Page.Navigate | src/pages/Search.jsx:14-22 | a new address reruns the effect only when the query changed; the same query changes nothing; a new non-empty query keeps the shown results until the search settles |
| SearchPage.Page.FinishSearch | src/pages/Search.jsx:24-35 | blogs become `BlogsOrEmpty` of the outcome and loading ends false |
| SearchPage.Page.SetSearchTerm | src/pages/Search.jsx:58 | sets the search box only |
| SearchPage.Page.HandleSearch | src/pages/Search.jsx:37-42 | navigates exactly when the term is not all white space, to the encoded untrimmed term |
| SearchPage.Page.Summary | src/pages/Search.jsx:71-75 | shown exactly for a non-empty query: "Searching..." while loading, else "Found N results for "{query}"" |
| SearchPage.Page.Render | src/pages/Search.jsx:78-97 | the loader, else cards, else "No results found" for a non-empty query, else nothing |
| SearchPage.OpenWithoutQuery | src/pages/Search.jsx:12-21 | opening the page without a query sends no request and shows nothing |
| DashboardPage.IsActive | src/pages/Dashboard.jsx:39-41 | active exactly when the pathname contains the fragment at some position |
| DashboardPage.LinkActive | src/pages/Dashboard.jsx:53-81 | Overview by equality with `/dashboard`, All Blogs by `blogs`, Add New by `new` |
| DashboardPage.NewBlogPageLinks | src/pages/Dashboard.jsx:63-81 | at `/dashboard/blogs/new`, All Blogs and Add New are active and Overview is not |
| DashboardPage.OverviewIsExact | src/pages/Dashboard.jsx:56 | below `/dashboard`, Overview is not active although the path contains `/dashboard` |
| DashboardPage.StatsRequest | src/pages/Dashboard.jsx:24-27 | GET of the stats endpoint with the bearer header |
| DashboardPage.Page.constructor | src/pages/Dashboard.jsx:11-15 | all three counters start at zero |
| DashboardPage.Page.StatsLoaded | src/pages/Dashboard.jsx:28-31 | a response replaces the counters; an error leaves them unchanged |
| DashboardPage.Page.HandleLogout | src/pages/Dashboard.jsx:34-37 | the token is removed and the browser goes to `/` |
| DashboardPage.FailedStatsStayZero | src/pages/Dashboard.jsx:11-31 | a failed request leaves the counters at zero |

## Left out

- HTTP transport and the REST API: each awaited request is an input `Fetched` value. Status
  codes, headers other than `Authorization`, and the servers are not modelled.
- Out-of-order responses across re-fetches: the code does nothing to order them, so each
  `Finish…` method assumes that its response belongs to the latest request.
- Timers: `setInterval` and its cleanup in the slider are left out. Only the step a tick
  performs is kept (`FeaturedSlider.Slider.Tick`).
- Animations and notifications: gsap, the toast display (the toasts are returned as
  `Notice` values), the FileReader preview of a chosen image, the rich-text editor widget,
  the share buttons, raw HTML rendering and `window.scrollTo` are UI or foreign libraries.
- `formatDate` uses locale-dependent date formatting.
- FeaturedSlider.Slider.Tick: requires a non-empty list. The timer also runs while the home
  page is loading and passes an empty list, and then `% 0` makes the index NaN; a later
  non-empty list then renders `featuredBlogs[NaN]`, which is `undefined`, and reading its
  `image` throws. The model does not represent the NaN index. NextSlide and PrevSlide
  require a non-empty list too, which holds wherever their buttons are drawn.
- FeaturedSlider.Slider.View: requires a valid index. `ReceiveBlogs` keeps an index that may
  point past a shorter list; the source then reads `image` of `undefined` and the render
  throws. The model states when the index stays valid and does not model the throw.
- BlogEditor.Editor.BeginSubmit: the browser's checks of the `type="url"` affiliate link and
  the `type="number"` price with step 0.01 are a parameter, `typedInputsValid`; their rules
  are not modelled.
- Api.Blog: `price` is a number in the stored record, and the number 0 is falsy, so
  `price || ''` would turn it into `''`. The model keeps prices as optional text and does
  not capture that case.
- JsText.LowerChar, UpperChar: case mapping covers ASCII letters only, not full Unicode case
  mapping. JsText.ToLower and Categories.Slug inherit this, and the category round-trip
  lemmas (`DisplayNameOfSlug`, `PathDetermines`) are stated for ASCII
  names only.
- JsText.EncodeUriComponent: a lone surrogate cannot occur, because Dafny characters are
  Unicode scalar values. The error `encodeURIComponent` throws for one is therefore not
  modelled.
- DashboardPage.Page.StatsLoaded: a response without a `stats` object would replace the
  counters with `undefined` and break the overview. The model takes the stats themselves as
  the response.
- BlogDetail.Page.LookupDone: a returned blog without a `category` makes the related
  request throw. The model always has a category.
- The router's decoding of the `q` parameter and of route parameters is left out. Both
  arrive already decoded.
- src/App.jsx (the route table), src/components/Footer.jsx, src/components/BlogCard.jsx, the
  login page and the dashboard's blog list are not part of this model.
