/** The blogs table: loads the posts from the blog API into display rows, deletes
    rows, and saves title, content and an optional new image through a dialog,
    reloading the list after a successful save. */
module BlogsTable {
  import opened Js
  import opened Http
  import opened ListEdits
  import opened BlogsApi

  /** A post as the API describes it; `id` is the backend's `_id`. */
  datatype ApiBlog = ApiBlog(
    id: string, title: string, content: string, featuredImage: Option<string>, status: Option<string>,
    authorId: Option<string>, likes: Option<int>, likers: Option<seq<string>>,
    createdAt: Option<string>, updatedAt: Option<string>)

  /** A display row; `image` is "" when the post has no picture. */
  datatype BlogRow = BlogRow(
    id: string, title: string, content: string, status: string, author: Option<string>,
    createdAt: Option<string>, updatedAt: Option<string>, tags: seq<string>, image: string)

  function RowId(r: BlogRow): string {
    r.id
  }

  const DefaultStatus := "published"
  const DeleteFailedText := "Failed to delete"
  const SaveFailedText := "Failed to save changes"

  /** `b.status?.toLowerCase() || 'published'`. */
  function RowStatus(status: Option<string>): (s: string)
    ensures s != "" && ToLower(s) == s
    ensures status.None? || status.value == "" ==> s == DefaultStatus
    ensures status.Some? && status.value != "" ==> s == ToLower(status.value)
  {
    if status.None? then DefaultStatus
    else
      var lowered := ToLower(status.value);
      ToLowerIdempotent(status.value);
      if lowered == "" then DefaultStatus else lowered
  }

  /** The row a post is shown as. */
  function ToRow(apiUrl: Option<string>, b: ApiBlog): (r: BlogRow)
    ensures r.id == b.id && r.title == b.title && r.content == b.content && r.author == b.authorId
    ensures r.createdAt == b.createdAt && r.updatedAt == b.updatedAt
    ensures r.status == RowStatus(b.status) && r.tags == []
    ensures r.image == BlogImageUrl(apiUrl, b.featuredImage)
    ensures WellFormed(r)
  {
    BlogRow(b.id, b.title, b.content, RowStatus(b.status), b.authorId, b.createdAt, b.updatedAt, [],
            BlogImageUrl(apiUrl, b.featuredImage))
  }

  /** What every row built from the API satisfies: a non-empty lower-case status and no tags. */
  predicate WellFormed(r: BlogRow) {
    r.status != "" && ToLower(r.status) == r.status && r.tags == []
  }

  function RowsOf(apiUrl: Option<string>, posts: seq<ApiBlog>): (rows: seq<BlogRow>)
    ensures |rows| == |posts|
    ensures forall i :: 0 <= i < |posts| ==> rows[i] == ToRow(apiUrl, posts[i])
  {
    if posts == [] then [] else [ToRow(apiUrl, posts[0])] + RowsOf(apiUrl, posts[1..])
  }

  /** The tag cell: the first two tags, then a "+n" badge counting the rest when there are more. */
  datatype TagCell = TagCell(shown: seq<string>, more: Option<nat>)

  function Tags(tags: seq<string>): (c: TagCell)
    ensures |c.shown| == if |tags| < 2 then |tags| else 2
    ensures c.shown == tags[..|c.shown|]
    ensures c.more.Some? <==> |tags| > 2
    ensures c.more.Some? ==> |c.shown| + c.more.value == |tags|
  {
    TagCell(if |tags| < 2 then tags else tags[..2], if |tags| > 2 then Some(|tags| - 2) else None)
  }

  /** The request `fetchBlogs` sends, if any. */
  function FetchSent(apiUrl: Option<string>): (sent: seq<Request>)
    ensures sent != [] <==> EnsureApiUrl(apiUrl).Success?
    ensures sent != [] ==> sent == [Request(GET, apiUrl.value + "/blogs", NoBody, true)]
  {
    if apiUrl.Some? && apiUrl.value != "" then [Request(GET, apiUrl.value + "/blogs", NoBody, true)] else []
  }

  /** It is the request `fetchBlogs` records, whatever the answer. */
  lemma FetchSentIsFetchBlogs(apiUrl: Option<string>, outcome: FetchOutcome)
    ensures FetchSent(apiUrl) == SentOf(FetchBlogs(apiUrl, outcome).sent)
  {
  }

  function SentOf(sent: Option<Request>): (rs: seq<Request>)
    ensures sent.None? ==> rs == []
    ensures sent.Some? ==> rs == [sent.value]
  {
    if sent.Some? then [sent.value] else []
  }

  datatype TextField = Title | Content

  class Table {
    const apiUrl: Option<string>
    var blogs: seq<BlogRow>
    var editing: Option<BlogRow>
    var dialogOpen: bool
    var loading: bool
    var editImageFile: Option<File>
    var alerts: seq<string>
    var requests: seq<Request>

    /** Every row came from the API: the edits made in the dialog never reach the list directly. */
    ghost predicate Valid()
      reads this
    {
      forall i :: 0 <= i < |blogs| ==> WellFormed(blogs[i])
    }

    constructor (apiUrl: Option<string>)
      ensures Valid() && this.apiUrl == apiUrl
      ensures blogs == [] && editing.None? && !dialogOpen && loading && editImageFile.None?
      ensures alerts == [] && requests == []
    {
      this.apiUrl := apiUrl;
      blogs := [];
      editing := None;
      dialogOpen := false;
      loading := true;
      editImageFile := None;
      alerts := [];
      requests := [];
    }

    /** `loadBlogs()`: never throws; a failed fetch is only logged and keeps the current rows.
        `loaded` is what `fetchBlogs` produced, so it fails when no base URL is configured. */
    method LoadBlogs(loaded: Result<seq<ApiBlog>, Error>)
      requires Valid()
      requires EnsureApiUrl(apiUrl).Failure? ==> loaded.Failure?
      modifies this
      ensures Valid()
      ensures requests == old(requests) + FetchSent(apiUrl)
      ensures loaded.Success? ==> blogs == RowsOf(apiUrl, loaded.value)
      ensures loaded.Failure? ==> blogs == old(blogs)
      ensures !loading
      ensures editing == old(editing) && dialogOpen == old(dialogOpen)
      ensures editImageFile == old(editImageFile) && alerts == old(alerts)
    {
      loading := true;
      requests := requests + FetchSent(apiUrl);
      if loaded.Success? {
        var rows := RowsOf(apiUrl, loaded.value);
        forall i | 0 <= i < |rows| ensures WellFormed(rows[i]) {
          assert rows[i] == ToRow(apiUrl, loaded.value[i]);
        }
        blogs := rows;
      }
      loading := false;
    }

    /** `handleEdit(blog)`: opens the dialog on the row and forgets a previously picked image. */
    method HandleEdit(row: BlogRow)
      requires Valid()
      modifies this
      ensures Valid()
      ensures editing == Some(row) && editImageFile.None? && dialogOpen
      ensures blogs == old(blogs) && loading == old(loading)
      ensures alerts == old(alerts) && requests == old(requests)
    {
      editing := Some(row);
      editImageFile := None;
      dialogOpen := true;
    }

    /** `handleDelete(id)`. */
    method HandleDelete(id: string, outcome: FetchOutcome)
      requires Valid()
      modifies this
      ensures Valid()
      ensures var c := DeleteBlog(apiUrl, id, outcome);
              && requests == old(requests) + SentOf(c.sent)
              && (c.result.Success? ==> blogs == Without(old(blogs), id, RowId) && alerts == old(alerts))
              && (c.result.Failure? ==>
                    blogs == old(blogs) && alerts == old(alerts) + [MessageOr(c.result.error, DeleteFailedText)])
      ensures editing == old(editing) && dialogOpen == old(dialogOpen)
      ensures loading == old(loading) && editImageFile == old(editImageFile)
    {
      var c := DeleteBlog(apiUrl, id, outcome);
      requests := requests + SentOf(c.sent);
      if c.result.Success? {
        WithoutMembers(blogs, id, RowId);
        blogs := Without(blogs, id, RowId);
      } else {
        alerts := alerts + [MessageOr(c.result.error, DeleteFailedText)];
      }
    }

    /** The dialog's Save button: without a row being edited nothing happens. Otherwise the
        update is sent and its outcome applied by `ApplySave`. */
    method Save(outcome: FetchOutcome, reloaded: Result<seq<ApiBlog>, Error>)
      requires Valid()
      requires EnsureApiUrl(apiUrl).Failure? ==> reloaded.Failure?
      modifies this
      ensures Valid()
      ensures old(editing).None? ==>
                blogs == old(blogs) && editing == old(editing) && dialogOpen == old(dialogOpen)
                && alerts == old(alerts) && requests == old(requests) && loading == old(loading)
      ensures old(editing).Some? ==>
                var e := old(editing).value;
                SaveApplied(old(blogs), old(editing), old(dialogOpen), old(loading), old(alerts), old(requests),
                            UpdateBlog(apiUrl, e.id, Some(e.title), Some(e.content), old(editImageFile), outcome), reloaded)
      ensures editImageFile == old(editImageFile)
    {
      if editing.None? {
        return;
      }
      var e := editing.value;
      var c := UpdateBlog(apiUrl, e.id, Some(e.title), Some(e.content), editImageFile, outcome);
      ApplySave(c, reloaded);
    }

    /** The state after the update call `c` settled: on success the list is reloaded (from
        `reloaded`) and the dialog closes; on failure an alert is shown and the dialog stays open
        on the edited row. */
    ghost predicate SaveApplied(blogs0: seq<BlogRow>, editing0: Option<BlogRow>, dialogOpen0: bool, loading0: bool,
                                alerts0: seq<string>, requests0: seq<Request>,
                                c: Call<Json>, reloaded: Result<seq<ApiBlog>, Error>)
      reads this
    {
      && (c.result.Success? ==>
            && requests == requests0 + SentOf(c.sent) + FetchSent(apiUrl)
            && (reloaded.Success? ==> blogs == RowsOf(apiUrl, reloaded.value))
            && (reloaded.Failure? ==> blogs == blogs0)
            && !loading && editing.None? && !dialogOpen && alerts == alerts0)
      && (c.result.Failure? ==>
            && requests == requests0 + SentOf(c.sent)
            && blogs == blogs0 && editing == editing0 && dialogOpen == dialogOpen0 && loading == loading0
            && alerts == alerts0 + [MessageOr(c.result.error, SaveFailedText)])
    }

    method ApplySave(c: Call<Json>, reloaded: Result<seq<ApiBlog>, Error>)
      requires Valid()
      requires EnsureApiUrl(apiUrl).Failure? ==> reloaded.Failure?
      modifies this
      ensures Valid()
      ensures SaveApplied(old(blogs), old(editing), old(dialogOpen), old(loading), old(alerts), old(requests), c, reloaded)
      ensures editImageFile == old(editImageFile)
    {
      requests := requests + SentOf(c.sent);
      if c.result.Success? {
        LoadBlogs(reloaded);
        dialogOpen := false;
        editing := None;
      } else {
        alerts := alerts + [MessageOr(c.result.error, SaveFailedText)];
      }
    }

    /** The title and excerpt inputs of the dialog. */
    method EditText(field: TextField, value: string)
      requires Valid() && editing.Some?
      modifies this
      ensures Valid()
      ensures editing == Some(match field
                              case Title => old(editing).value.(title := value)
                              case Content => old(editing).value.(content := value))
      ensures blogs == old(blogs) && dialogOpen == old(dialogOpen) && loading == old(loading)
      ensures editImageFile == old(editImageFile) && alerts == old(alerts) && requests == old(requests)
    {
      editing := Some(match field
                      case Title => editing.value.(title := value)
                      case Content => editing.value.(content := value));
    }

    /** The dialog's file input: the first picked file, or none. */
    method SelectImage(files: seq<File>)
      requires Valid()
      modifies this
      ensures Valid()
      ensures editImageFile == if files == [] then None else Some(files[0])
      ensures blogs == old(blogs) && editing == old(editing) && dialogOpen == old(dialogOpen)
      ensures loading == old(loading) && alerts == old(alerts) && requests == old(requests)
    {
      editImageFile := if files == [] then None else Some(files[0]);
    }

    /** The Cancel button and the dialog's close request. */
    method CloseDialog()
      requires Valid()
      modifies this
      ensures Valid()
      ensures !dialogOpen && editing == old(editing) && blogs == old(blogs)
      ensures loading == old(loading) && editImageFile == old(editImageFile)
      ensures alerts == old(alerts) && requests == old(requests)
    {
      dialogOpen := false;
    }
  }

  /** Rows built from the API never show tags: the tag cell is empty for each of them. */
  lemma ApiRowsShowNoTags(apiUrl: Option<string>, posts: seq<ApiBlog>, i: int)
    requires 0 <= i < |posts|
    ensures Tags(RowsOf(apiUrl, posts)[i].tags) == TagCell([], None)
  {
  }

  /** Whatever the handlers did, every listed row shows an empty tag cell and a non-empty,
      lower-case status: the rows only ever come from the API. */
  lemma ListedRowsShowNoTags(t: Table)
    requires t.Valid()
    ensures forall i :: 0 <= i < |t.blogs| ==>
              Tags(t.blogs[i].tags) == TagCell([], None)
              && t.blogs[i].status != "" && ToLower(t.blogs[i].status) == t.blogs[i].status
  {
    forall i | 0 <= i < |t.blogs|
      ensures Tags(t.blogs[i].tags) == TagCell([], None)
    {
      assert WellFormed(t.blogs[i]);
    }
  }

  /** An upper-case status from the API is shown lower-cased, and an empty one as "published". */
  lemma StatusExamples()
    ensures RowStatus(Some("Draft")) == "draft"
    ensures RowStatus(Some("")) == DefaultStatus
  {
    assert ToLower("Draft") == [LowerChar('D')] + ToLower("raft");
  }

  /** A post without a picture gets the placeholder, whether or not the API is configured. */
  lemma MissingImageIsPlaceholder(apiUrl: Option<string>, b: ApiBlog)
    requires b.featuredImage.None?
    ensures ToRow(apiUrl, b).image == ""
  {
  }

  /** The dialog closes exactly when the update call succeeds: the API is configured, the answer
      is ok and its body is not `null`; the reload's own outcome plays no part. */
  lemma SaveSucceedsWhen(t: Table, outcome: FetchOutcome)
    requires t.editing.Some?
    ensures var e := t.editing.value;
            UpdateBlog(t.apiUrl, e.id, Some(e.title), Some(e.content), t.editImageFile, outcome).result.Success?
            <==> EnsureApiUrl(t.apiUrl).Success? && outcome.Resolved? && Ok(outcome.response)
                 && !JsonOrEmpty(outcome.response).JNull?
  {
  }
}
