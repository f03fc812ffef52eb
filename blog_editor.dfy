/**
 * The admin's create/edit form: tag management, loading a stored record for editing,
 * the multipart body of a save and the choice between creating and updating.
 */
module BlogEditor {
  import opened Wrappers
  import opened Seqs
  import opened JsText
  import opened JsonTags
  import opened Api
  import Session

  /** The form's state object, in the order its keys are declared. */
  datatype Form = Form(
    title: string,
    description: string,
    content: string,
    category: string,
    price: string,
    affiliateLink: string,
    tags: seq<string>,
    image: Option<ImageFile>)

  const EmptyForm := Form("", "", "", "", "", "", [], None)

  datatype Field = Title | Description | Content | Category | Price | AffiliateLink | Tags | Image

  /** `Object.keys(formData)`: the declaration order, which every update keeps. */
  const Fields: seq<Field> := [Title, Description, Content, Category, Price, AffiliateLink, Tags, Image]

  function Key(f: Field): string {
    match f
    case Title => "title"
    case Description => "description"
    case Content => "content"
    case Category => "category"
    case Price => "price"
    case AffiliateLink => "affiliateLink"
    case Tags => "tags"
    case Image => "image"
  }

  /** The field a FormData key names, if any. */
  function FieldOfKey(key: string): (r: Option<Field>)
    ensures r.Some? ==> Key(r.value) == key
  {
    if key == "title" then Some(Title)
    else if key == "description" then Some(Description)
    else if key == "content" then Some(Content)
    else if key == "category" then Some(Category)
    else if key == "price" then Some(Price)
    else if key == "affiliateLink" then Some(AffiliateLink)
    else if key == "tags" then Some(Tags)
    else if key == "image" then Some(Image)
    else None
  }

  /** Different fields have different keys: each key names its own field back. */
  lemma KeyInjective(f: Field, g: Field)
    ensures FieldOfKey(Key(f)) == Some(f)
    ensures Key(f) == Key(g) ==> f == g
  {
    match f
    case Title =>
    case Description =>
    case Content =>
    case Category =>
    case Price =>
    case AffiliateLink =>
    case Tags =>
    case Image =>
  }

  predicate IsText(f: Field) {
    f != Tags && f != Image
  }

  function TextValue(form: Form, f: Field): string
    requires IsText(f)
  {
    match f
    case Title => form.title
    case Description => form.description
    case Content => form.content
    case Category => form.category
    case Price => form.price
    case AffiliateLink => form.affiliateLink
  }

  // ---------------------------------------------------------------- tags

  /** All tags are free of surrounding white space. */
  predicate AllTrimmed(tags: seq<string>) {
    forall k :: 0 <= k < |tags| ==> Trim(tags[k]) == tags[k]
  }

  /**
   * addTag on the tag list and the tag input: the trimmed input is appended and the input
   * cleared exactly when the trimmed input is non-empty and not yet a tag; otherwise both
   * stay as they were. The old tags always remain a prefix.
   */
  function AddTagTo(tags: seq<string>, input: string): (r: (seq<string>, string))
    ensures tags <= r.0 && |r.0| <= |tags| + 1
    ensures |r.0| == |tags| + 1 <==> Trim(input) != "" && Trim(input) !in tags
    ensures |r.0| == |tags| + 1 ==> r.0[|tags|] == Trim(input) && r.1 == ""
    ensures |r.0| == |tags| ==> r == (tags, input)
  {
    var t := Trim(input);
    if t != "" && t !in tags then (tags + [t], "") else (tags, input)
  }

  /** Blank or white-space-only input changes neither the tags nor the input box. */
  lemma {:induction false} AddTagBlank(tags: seq<string>, input: string)
    requires AllSpace(input)
    ensures AddTagTo(tags, input) == (tags, input)
  {
    TrimBlankIff(input);
  }

  /** Input that trims to an existing tag changes nothing, whatever white space surrounds it. */
  lemma {:induction false} AddTagDuplicate(tags: seq<string>, input: string, k: int)
    requires 0 <= k < |tags| && Trim(input) == tags[k]
    ensures AddTagTo(tags, input) == (tags, input)
  {
  }

  /**
   * addTag keeps the tag list free of duplicates, and keeps every tag trimmed, so no two
   * tags differ only in surrounding white space.
   */
  lemma {:induction false} AddTagInvariant(tags: seq<string>, input: string)
    requires NoDup(tags) && AllTrimmed(tags)
    ensures NoDup(AddTagTo(tags, input).0) && AllTrimmed(AddTagTo(tags, input).0)
  {
    var r := AddTagTo(tags, input).0;
    if |r| == |tags| + 1 {
      TrimIdempotent(input);
      assert r == tags + [Trim(input)];
      forall i, j | 0 <= i < j < |r| ensures r[i] != r[j] {
        if j == |tags| {
          assert r[i] == tags[i];
        }
      }
    }
  }

  /**
   * removeTag: `tags.filter(tag => tag !== t)`. Afterwards `t` is gone, every other tag
   * keeps its number of occurrences, and the survivors keep their relative order.
   */
  function RemoveTagFrom(tags: seq<string>, t: string): (r: seq<string>)
    ensures t !in r
    ensures forall x :: x != t ==> multiset(r)[x] == multiset(tags)[x]
    ensures IsSubsequence(r, tags)
  {
    Filter(tags, x => x != t)
  }

  /** removeTag keeps the tag list free of duplicates and every tag trimmed. */
  lemma {:induction false} RemoveTagInvariant(tags: seq<string>, t: string)
    requires NoDup(tags) && AllTrimmed(tags)
    ensures NoDup(RemoveTagFrom(tags, t)) && AllTrimmed(RemoveTagFrom(tags, t))
  {
    var r := RemoveTagFrom(tags, t);
    SubsequenceNoDup(r, tags);
    forall k | 0 <= k < |r| ensures Trim(r[k]) == r[k] {
      SubsequenceMembers(r, tags, r[k]);
    }
  }

  // ---------------------------------------------------------------- loading a record

  /**
   * fetchBlog's mapping of a stored record into the form: a missing or empty price or
   * affiliate link becomes `''`, missing tags become `[]`, and no image file is chosen
   * (the stored image only feeds the preview).
   */
  function FormOf(b: Blog): (f: Form)
    ensures f.title == b.title && f.description == b.description
    ensures f.content == b.content && f.category == b.category
    ensures f.price == (if b.price.Some? then b.price.value else "")
    ensures f.affiliateLink == (if b.affiliateLink.Some? then b.affiliateLink.value else "")
    ensures f.tags == (if b.tags.Some? then b.tags.value else [])
    ensures f.image == None
  {
    Form(b.title, b.description, b.content, b.category,
         b.price.GetOr(""), b.affiliateLink.GetOr(""), b.tags.GetOr([]), None)
  }

  // ---------------------------------------------------------------- the save request

  /** The FormData entries one key contributes to the body (none for an unchosen image). */
  function Entry(form: Form, f: Field): seq<(string, Part)> {
    match f
    case Tags => [(Key(f), TextPart(EncodeTags(form.tags)))]
    case Image => if form.image.Some? then [(Key(f), FilePart(form.image.value))] else []
    case _ => [(Key(f), TextPart(TextValue(form, f)))]
  }

  /** The entries of the given keys, in that order. */
  function EntriesFor(form: Form, keys: seq<Field>): seq<(string, Part)> {
    if keys == [] then [] else Entry(form, keys[0]) + EntriesFor(form, keys[1..])
  }

  /** The multipart body handleSubmit assembles. */
  function Submission(form: Form): seq<(string, Part)> {
    EntriesFor(form, Fields)
  }

  /** `FormData.getAll(key)`: the values appended under `key`, in order. */
  function ValuesOf(entries: seq<(string, Part)>, key: string): seq<Part> {
    if entries == [] then []
    else (if entries[0].0 == key then [entries[0].1] else []) + ValuesOf(entries[1..], key)
  }

  lemma {:induction false} ValuesOfAppend(a: seq<(string, Part)>, b: seq<(string, Part)>, key: string)
    ensures ValuesOf(a + b, key) == ValuesOf(a, key) + ValuesOf(b, key)
  {
    if a == [] {
      assert a + b == b;
    } else {
      var ab := a + b;
      assert ab != [] && ab[0] == a[0] && ab[1..] == a[1..] + b;
      var h := if a[0].0 == key then [a[0].1] else [];
      assert ValuesOf(a, key) == h + ValuesOf(a[1..], key);
      assert ValuesOf(ab, key) == h + ValuesOf(a[1..] + b, key);
      ValuesOfAppend(a[1..], b, key);
      AppendAssoc(h, ValuesOf(a[1..], key), ValuesOf(b, key));
    }
  }

  /** What the body holds under the key of `f`. */
  function Expected(form: Form, f: Field): seq<Part> {
    match f
    case Tags => [TextPart(EncodeTags(form.tags))]
    case Image => if form.image.Some? then [FilePart(form.image.value)] else []
    case _ => [TextPart(TextValue(form, f))]
  }

  /** One key's entries hold, under the key of `f`, the expected value when it is `f`'s key and nothing otherwise. */
  lemma EntryValues(form: Form, g: Field, f: Field)
    ensures ValuesOf(Entry(form, g), Key(f)) == if f == g then Expected(form, f) else []
  {
    KeyInjective(f, g);
  }

  lemma {:induction false} ValuesOfEntries(form: Form, keys: seq<Field>, f: Field)
    requires NoDup(keys)
    ensures ValuesOf(EntriesFor(form, keys), Key(f)) == if f in keys then Expected(form, f) else []
  {
    if keys != [] {
      var g := keys[0];
      EntryValues(form, g, f);
      ValuesOfAppend(Entry(form, g), EntriesFor(form, keys[1..]), Key(f));
      NoDupTail(keys);
      ValuesOfEntries(form, keys[1..], f);
      assert f == g ==> f !in keys[1..];
      assert f in keys <==> f == g || f in keys[1..];
    }
  }

  /** The form's keys are distinct, and every field is among them. */
  lemma FieldsComplete(f: Field)
    ensures NoDup(Fields) && f in Fields
  {
    assert Fields[0] == Title && Fields[1] == Description && Fields[2] == Content;
    assert Fields[3] == Category && Fields[4] == Price && Fields[5] == AffiliateLink;
    assert Fields[6] == Tags && Fields[7] == Image;
  }

  /**
   * The body of a save: every text field once, with its value as typed; `tags` once, as the
   * JSON text that reads back as the tag list; `image` only when a file was chosen.
   */
  lemma SubmissionContents(form: Form)
    ensures forall f :: IsText(f) ==> ValuesOf(Submission(form), Key(f)) == [TextPart(TextValue(form, f))]
    ensures ValuesOf(Submission(form), "tags") == [TextPart(EncodeTags(form.tags))]
    ensures DecodeTags(EncodeTags(form.tags)) == Some(form.tags)
    ensures ValuesOf(Submission(form), "image") ==
              if form.image.Some? then [FilePart(form.image.value)] else []
  {
    forall f ensures ValuesOf(Submission(form), Key(f)) == Expected(form, f) {
      FieldsComplete(f);
      ValuesOfEntries(form, Fields, f);
    }
    assert Key(Tags) == "tags" && Key(Image) == "image";
    TagsRoundTrip(form.tags);
  }

  /**
   * handleSubmit's `forEach` over the form's keys: `tags` is appended as its JSON text, the
   * image only when one was chosen, every other value as it is.
   */
  method BuildSubmission(form: Form) returns (body: seq<(string, Part)>)
    ensures body == Submission(form)
  {
    body := AppendEntries(form, Fields);
  }

  /** The `forEach` loop itself, over any list of keys. */
  method AppendEntries(form: Form, keys: seq<Field>) returns (body: seq<(string, Part)>)
    ensures body == EntriesFor(form, keys)
  {
    body := [];
    var i := 0;
    while i < |keys|
      invariant 0 <= i <= |keys|
      invariant body + EntriesFor(form, keys[i..]) == EntriesFor(form, keys)
    {
      var key := keys[i];
      var appended: seq<(string, Part)>;
      if key == Tags {
        appended := [(Key(key), TextPart(EncodeTags(form.tags)))];
      } else if key == Image && form.image.Some? {
        appended := [(Key(key), FilePart(form.image.value))];
      } else if key != Image {
        appended := [(Key(key), TextPart(TextValue(form, key)))];
      } else {
        appended := [];
      }
      var rest := EntriesFor(form, keys[i + 1..]);
      assert keys[i..][0] == key && keys[i..][1..] == keys[i + 1..];
      assert appended == Entry(form, key);
      assert EntriesFor(form, keys[i..]) == appended + rest;
      AppendAssoc(body, appended, rest);
      body := body + appended;
      i := i + 1;
    }
    assert keys[i..] == [];
  }

  /** `!!id`: the route carries a non-empty id. */
  predicate IsEditing(id: Option<string>) {
    id.Some? && id.value != ""
  }

  /**
   * Where a save goes: PUT `/api/admin/blogs/{id}` when editing, otherwise POST
   * `/api/admin/blogs`.
   */
  function SaveTarget(id: Option<string>): (r: (Verb, string))
    ensures IsEditing(id) ==> r == (Put, "/api/admin/blogs/" + id.value)
    ensures !IsEditing(id) ==> r == (Post, "/api/admin/blogs")
  {
    if IsEditing(id) then (Put, "/api/admin/blogs/" + id.value) else (Post, "/api/admin/blogs")
  }

  /**
   * The browser's constraint validation of the form: the title, category and description
   * inputs carry `required`; the rich-text content does not.
   */
  predicate RequiredFilled(form: Form) {
    form.title != "" && form.category != "" && form.description != ""
  }

  /** The toast of a save whose response reports success. */
  function SavedText(id: Option<string>): string {
    if IsEditing(id) then "Blog updated successfully!" else "Blog created successfully!"
  }

  /**
   * Editing a stored record and saving it unchanged sends back each of its text fields (with
   * the `|| ''` defaults), its tags as JSON text that reads back as the stored list, and no image.
   */
  lemma EditRoundTrip(b: Blog)
    ensures ValuesOf(Submission(FormOf(b)), "title") == [TextPart(b.title)]
    ensures ValuesOf(Submission(FormOf(b)), "description") == [TextPart(b.description)]
    ensures ValuesOf(Submission(FormOf(b)), "content") == [TextPart(b.content)]
    ensures ValuesOf(Submission(FormOf(b)), "category") == [TextPart(b.category)]
    ensures ValuesOf(Submission(FormOf(b)), "price") == [TextPart(b.price.GetOr(""))]
    ensures ValuesOf(Submission(FormOf(b)), "affiliateLink") == [TextPart(b.affiliateLink.GetOr(""))]
    ensures ValuesOf(Submission(FormOf(b)), "tags") == [TextPart(EncodeTags(b.tags.GetOr([])))]
    ensures DecodeTags(EncodeTags(b.tags.GetOr([]))) == Some(b.tags.GetOr([]))
    ensures ValuesOf(Submission(FormOf(b)), "image") == []
  {
    var form := FormOf(b);
    SubmissionContents(form);
    assert Key(Title) == "title" && Key(Description) == "description" && Key(Content) == "content";
    assert Key(Category) == "category" && Key(Price) == "price" && Key(AffiliateLink) == "affiliateLink";
    assert IsText(Title) && IsText(Description) && IsText(Content);
    assert IsText(Category) && IsText(Price) && IsText(AffiliateLink);
  }

  // ---------------------------------------------------------------- the component

  class Editor {
    /** The `:id` route parameter; the editor stays mounted when it changes. */
    var id: Option<string>
    var form: Form
    var tagInput: string
    var loading: bool
    /** The preview source: `''` at first, the stored image URL once a record is loaded. */
    var imagePreview: Option<string>

    constructor (id: Option<string>)
      ensures this.id == id && form == EmptyForm && tagInput == ""
      ensures !loading && imagePreview == Some("")
    {
      this.id := id;
      form := EmptyForm;
      tagInput := "";
      loading := false;
      imagePreview := Some("");
    }

    /** handleChange for one of the text inputs. */
    method HandleChange(f: Field, value: string)
      requires IsText(f)
      modifies this
      ensures id == old(id)
      ensures TextValue(form, f) == value
      ensures forall g :: IsText(g) && g != f ==> TextValue(form, g) == TextValue(old(form), g)
      ensures form.tags == old(form.tags) && form.image == old(form.image)
      ensures tagInput == old(tagInput) && loading == old(loading) && imagePreview == old(imagePreview)
    {
      match f
      case Title => form := form.(title := value);
      case Description => form := form.(description := value);
      case Content => form := form.(content := value);
      case Category => form := form.(category := value);
      case Price => form := form.(price := value);
      case AffiliateLink => form := form.(affiliateLink := value);
    }

    /** handleImageChange: a chosen file replaces the image; cancelling the dialog keeps it. */
    method HandleImageChange(file: Option<ImageFile>)
      modifies this
      ensures id == old(id)
      ensures form == if file.Some? then old(form).(image := file) else old(form)
      ensures tagInput == old(tagInput) && loading == old(loading) && imagePreview == old(imagePreview)
    {
      if file.Some? {
        form := form.(image := file);
      }
    }

    /** The preview's remove button: the preview is cleared and no image will be sent. */
    method RemoveImage()
      modifies this
      ensures id == old(id)
      ensures imagePreview == Some("") && form == old(form).(image := None)
      ensures ValuesOf(Submission(form), "image") == []
      ensures tagInput == old(tagInput) && loading == old(loading)
    {
      imagePreview := Some("");
      form := form.(image := None);
      SubmissionContents(form);
    }

    method SetTagInput(text: string)
      modifies this
      ensures id == old(id)
      ensures tagInput == text && form == old(form) && loading == old(loading) && imagePreview == old(imagePreview)
    {
      tagInput := text;
    }

    /** addTag; with the tag list free of duplicates and trimmed before, it stays so. */
    method AddTag()
      modifies this
      ensures id == old(id)
      ensures (form.tags, tagInput) == AddTagTo(old(form.tags), old(tagInput))
      ensures form == old(form).(tags := form.tags)
      ensures loading == old(loading) && imagePreview == old(imagePreview)
      ensures NoDup(old(form.tags)) && AllTrimmed(old(form.tags)) ==>
                NoDup(form.tags) && AllTrimmed(form.tags)
    {
      var before := form;
      var r := AddTagTo(form.tags, tagInput);
      if NoDup(form.tags) && AllTrimmed(form.tags) {
        AddTagInvariant(form.tags, tagInput);
      }
      form := before.(tags := r.0);
      tagInput := r.1;
    }

    /** removeTag; with the tag list free of duplicates and trimmed before, it stays so. */
    method RemoveTag(t: string)
      modifies this
      ensures id == old(id)
      ensures form == old(form).(tags := RemoveTagFrom(old(form.tags), t))
      ensures tagInput == old(tagInput) && loading == old(loading) && imagePreview == old(imagePreview)
      ensures NoDup(old(form.tags)) && AllTrimmed(old(form.tags)) ==>
                NoDup(form.tags) && AllTrimmed(form.tags)
    {
      form := form.(tags := Filter(form.tags, x => x != t));
      if NoDup(old(form.tags)) && AllTrimmed(old(form.tags)) {
        RemoveTagInvariant(old(form.tags), t);
      }
    }

    /** The request fetchBlog sends when the page edits a record. */
    function LoadRequest(token: Option<string>): (r: Request)
      reads this
      requires IsEditing(id)
      ensures r.verb == Get && r.url == "/api/admin/blogs/" + id.value
      ensures r.authorization == Some(Bearer(token)) && r.body == []
    {
      Request(Get, "/api/admin/blogs/" + id.value, Some(Bearer(token)), [])
    }

    /**
     * The address changes while the editor stays mounted, say from editing one record to
     * the "Add New Blog" link or to editing another. The effect keyed on the id runs again
     * only when the id differs, and it sends the record request only for an editing id.
     * Nothing is reset: the form, the tag input, the preview and the loading flag stay.
     */
    method Navigate(newId: Option<string>, token: Option<string>) returns (request: Option<Request>)
      modifies this
      ensures id == newId
      ensures request.Some? <==> newId != old(id) && IsEditing(newId)
      ensures request.Some? ==> request.value == LoadRequest(token)
      ensures form == old(form) && tagInput == old(tagInput)
      ensures imagePreview == old(imagePreview) && loading == old(loading)
    {
      if newId == id || !IsEditing(newId) {
        id := newId;
        return None;
      }
      id := newId;
      request := Some(LoadRequest(token));
    }

    /**
     * fetchBlog once its request settled: a returned record fills the form and the preview;
     * a missing record (reading its fields throws) or a failed request shows
     * 'Error fetching blog' and goes back to the list, leaving the form as it was.
     */
    method LoadRecord(response: Fetched<Option<Blog>>) returns (notice: Option<Notice>, navigate: Option<string>)
      requires IsEditing(id)
      modifies this
      ensures id == old(id)
      ensures response.Received? && response.body.Some? ==>
                form == FormOf(response.body.value) && imagePreview == response.body.value.image
                && notice == None && navigate == None
      ensures !(response.Received? && response.body.Some?) ==>
                form == old(form) && imagePreview == old(imagePreview)
                && notice == Some(ErrorToast("Error fetching blog")) && navigate == Some("/dashboard/blogs")
      ensures tagInput == old(tagInput) && loading == old(loading)
    {
      if response.Received? && response.body.Some? {
        var b := response.body.value;
        form := FormOf(b);
        imagePreview := b.image;
        notice, navigate := None, None;
      } else {
        notice, navigate := Some(ErrorToast("Error fetching blog")), Some("/dashboard/blogs");
      }
    }

    /**
     * Submitting the form. While a save is in flight the only submit button is disabled
     * (`disabled={loading}`), so neither a click nor Enter submits. Constraint validation
     * blocks the submit before handleSubmit runs when a required field is empty, or when the browser rejects the typed inputs (the
     * `type="url"` affiliate link, the `type="number"` price with step 0.01); `typedInputsValid`
     * is the browser's verdict on the latter. A blocked submit changes nothing and sends no
     * request. Otherwise loading is switched on and the save request is sent with the token's
     * bearer header.
     */
    method BeginSubmit(jar: Session.CookieJar, typedInputsValid: bool) returns (request: Option<Request>)
      modifies this
      ensures id == old(id)
      ensures request.Some? <==> !old(loading) && RequiredFilled(form) && typedInputsValid
      ensures request.None? ==> loading == old(loading)
      ensures request.Some? ==> loading
      ensures request.Some? ==>
                var (verb, url) := SaveTarget(id);
                request.value == Request(verb, url, Some(Bearer(jar.token)), Submission(form))
      ensures form == old(form) && tagInput == old(tagInput) && imagePreview == old(imagePreview)
    {
      if loading || !RequiredFilled(form) || !typedInputsValid {
        return None;
      }
      loading := true;
      var body := BuildSubmission(form);
      var target := SaveTarget(id);
      request := Some(Request(target.0, target.1, Some(Bearer(jar.token)), body));
    }

    /**
     * handleSubmit once its request settled. A response with `success` shows the saved toast
     * and returns to the list; one without it does nothing more; a thrown error shows the
     * server's message, or 'Error saving blog'. On every path `loading` ends false and the
     * form is kept, so the user can retry.
     */
    method FinishSubmit(response: Fetched<bool>) returns (notice: Option<Notice>, navigate: Option<string>)
      modifies this
      ensures id == old(id)
      ensures !loading
      ensures response == Received(true) ==>
                notice == Some(SuccessToast(SavedText(id))) && navigate == Some("/dashboard/blogs")
      ensures response == Received(false) ==> notice == None && navigate == None
      ensures response.Failed? ==>
                notice == Some(ErrorToast(MessageOr(response.message, "Error saving blog"))) && navigate == None
      ensures form == old(form) && tagInput == old(tagInput) && imagePreview == old(imagePreview)
    {
      match response {
        case Received(success) =>
          if success {
            notice, navigate := Some(SuccessToast(SavedText(id))), Some("/dashboard/blogs");
          } else {
            notice, navigate := None, None;
          }
        case Failed(message) =>
          notice, navigate := Some(ErrorToast(MessageOr(message, "Error saving blog"))), None;
      }
      loading := false;
    }
  }

  /**
   * Editing a loaded record and then following "Add New Blog": the form still holds the
   * record, and a save posts it to the collection as a new blog.
   */
  method StaleCreateForm(jar: Session.CookieJar, editId: string, record: Blog)
      returns (request: Option<Request>)
    requires editId != ""
    requires RequiredFilled(FormOf(record))
    ensures request == Some(Request(Post, "/api/admin/blogs", Some(Bearer(jar.token)), Submission(FormOf(record))))
  {
    var editor := new Editor(Some(editId));
    var _, _ := editor.LoadRecord(Received(Some(record)));
    var _ := editor.Navigate(None, jar.token);
    request := editor.BeginSubmit(jar, true);
  }
}
