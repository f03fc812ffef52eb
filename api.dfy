/** What the pages exchange with the REST API, with the network itself left as an input. */
module Api {
  import opened Wrappers

  /** A blog record as the API returns it; the optional fields may be missing from the JSON. */
  datatype Blog = Blog(
    id: string,
    slug: string,
    title: string,
    description: string,
    content: string,
    category: string,
    price: Option<string>,
    affiliateLink: Option<string>,
    tags: Option<seq<string>>,
    image: Option<string>)

  /**
   * The outcome of one awaited request: the response body, or a thrown error (network
   * failure or a non-2xx status) carrying `error.response.data.message` when there is one.
   */
  datatype Fetched<T> = Received(body: T) | Failed(message: Option<string>)

  datatype Verb = Get | Post | Put

  /** An image chosen in the file input; its bytes are not modelled. */
  datatype ImageFile = ImageFile(name: string)

  /** One value appended to a multipart FormData body. */
  datatype Part = TextPart(text: string) | FilePart(file: ImageFile)

  /** A request the page hands to axios: verb, URL, `Authorization` header and multipart body. */
  datatype Request = Request(verb: Verb, url: string, authorization: Option<string>, body: seq<(string, Part)>)

  /** The absolute base several pages hard-code instead of the relative `/api` prefix. */
  const LocalApi := "http://localhost:5000"

  /** A body-less GET without an `Authorization` header. */
  function PlainGet(url: string): Request {
    Request(Get, url, None, [])
  }

  /** `Bearer ${token}`: an absent cookie is interpolated as the text `undefined`. */
  function Bearer(token: Option<string>): (h: string)
    ensures token.Some? ==> h == "Bearer " + token.value
    ensures token.None? ==> h == "Bearer undefined"
  {
    "Bearer " + token.GetOr("undefined")
  }

  /** `response.data.blogs || []` inside the `try`, and `[]` from the `catch`. */
  function BlogsOrEmpty(r: Fetched<Option<seq<Blog>>>): (blogs: seq<Blog>)
    ensures r.Received? && r.body.Some? ==> blogs == r.body.value
    ensures r.Failed? || r.body.None? ==> blogs == []
  {
    match r
    case Received(b) => b.GetOr([])
    case Failed(_) => []
  }

  /** What a listing page shows below its heading. */
  datatype ListView = Loader | Cards(blogs: seq<Blog>) | EmptyMessage(text: string) | NoContent

  /** A toast shown to the user. */
  datatype Notice = SuccessToast(text: string) | ErrorToast(text: string)

  /** `error.response?.data?.message || fallback`: an empty message counts as missing. */
  function MessageOr(message: Option<string>, fallback: string): (text: string)
    ensures message.Some? && message.value != "" ==> text == message.value
    ensures message.None? || message.value == "" ==> text == fallback
  {
    if message.Some? && message.value != "" then message.value else fallback
  }
}
