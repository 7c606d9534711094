/** The blog API wrappers. Every operation first checks that the base URL is
    configured and throws before any request when it is not; after that it
    sends one credentialed request and reads the answer loosely. */
module BlogsApi {
  import opened Js
  import opened Http

  const NotSet := "NEXT_PUBLIC_API_URL is not set"

  /** One call of a wrapper: the request it sent (None when it threw first) and its outcome. */
  datatype Call<+T> = Call(sent: Option<Request>, result: Result<T, Error>)

  /** `ensureApiUrl()`: the configured base URL, or the configuration error. */
  function EnsureApiUrl(apiUrl: Option<string>): (r: Result<string, Error>)
    ensures r.Success? <==> apiUrl.Some? && apiUrl.value != ""
    ensures r.Success? ==> r.value == apiUrl.value
    ensures r.Failure? ==> r.error == Error(NotSet)
  {
    if apiUrl.Some? && apiUrl.value != "" then Success(apiUrl.value) else Failure(Error(NotSet))
  }

  /** The error of a non-ok answer: `err.error || fallback`, where `err` is the decoded body or
      `{}`. There is no optional chaining here, so a `null` body throws a `TypeError` instead. */
  function BlogError(res: Response, fallback: string): (e: Error)
    ensures JsonOrEmpty(res).JNull? ==> e == NullAccess("error")
    ensures !JsonOrEmpty(res).JNull? ==> e == ErrorFrom(GetOpt(JsonOrEmpty(res), "error"), fallback)
  {
    match Get(JsonOrEmpty(res), "error")
    case Threw(te) => te
    case Got(v) => ErrorFrom(v, fallback)
  }

  /** For an ok answer to `fetchBlogs`: the body if it is an array, else `body.blogs ?? []`. */
  function BlogList(data: Json): (r: Result<Json, Error>)
    ensures data.JArr? ==> r == Success(data)
    ensures data.JNull? ==> r == Failure(NullAccess("blogs"))
    ensures !data.JArr? && !data.JNull? ==> r == Success(Nullish(GetOpt(data, "blogs"), JArr([])))
  {
    if data.JArr? then Success(data)
    else match Get(data, "blogs")
      case Threw(e) => Failure(e)
      case Got(v) => Success(Nullish(v, JArr([])))
  }

  const FetchFailed := "Failed to fetch blogs"

  function FetchBlogs(apiUrl: Option<string>, outcome: FetchOutcome): (c: Call<Json>)
    ensures EnsureApiUrl(apiUrl).Failure? ==> c == Call(None, Failure(Error(NotSet)))
    ensures EnsureApiUrl(apiUrl).Success? ==>
              c.sent == Some(Request(GET, apiUrl.value + "/blogs", NoBody, true))
    ensures EnsureApiUrl(apiUrl).Success? && outcome.Rejected? ==> c.result == Failure(outcome.error)
    ensures EnsureApiUrl(apiUrl).Success? && outcome.Resolved? && !Ok(outcome.response) ==>
              c.result == Failure(Error(FetchFailed))
    ensures EnsureApiUrl(apiUrl).Success? && outcome.Resolved? && Ok(outcome.response)
            && outcome.response.body.Malformed? ==>
              c.result == Failure(Error(outcome.response.body.reason))
    ensures EnsureApiUrl(apiUrl).Success? && outcome.Resolved? && Ok(outcome.response)
            && outcome.response.body.Parsed? ==>
              c.result == BlogList(outcome.response.body.json)
  {
    match EnsureApiUrl(apiUrl)
    case Failure(e) => Call(None, Failure(e))
    case Success(base) =>
      var req := Request(GET, base + "/blogs", NoBody, true);
      match outcome
      case Rejected(e) => Call(Some(req), Failure(e))
      case Resolved(res) =>
        if !Ok(res) then Call(Some(req), Failure(Error(FetchFailed)))
        else match JsonOf(res)
          case Failure(e) => Call(Some(req), Failure(e))
          case Success(data) => Call(Some(req), BlogList(data))
  }

  /** The form `createBlog` sends: exactly title, content and the featured image, in that order. */
  function CreateBlogForm(title: string, content: string, file: File): (form: seq<Entry>)
    ensures Keys(form) == ["title", "content", "featured_image"]
    ensures form[0].value == Text(title) && form[1].value == Text(content) && form[2].value == Blob(file)
  {
    [Entry("title", Text(title)), Entry("content", Text(content)), Entry("featured_image", Blob(file))]
  }

  /** The first truthy property among `keys`, read from a non-null object, else the object itself. */
  function FirstTruthy(data: Json, keys: seq<string>): (r: Json)
    requires !data.JNull?
    ensures r == data || exists i :: 0 <= i < |keys| && Some(r) == GetOpt(data, keys[i]) && Truthy(Some(r))
    ensures (forall i :: 0 <= i < |keys| ==> !Truthy(GetOpt(data, keys[i]))) ==> r == data
    ensures keys != [] && Truthy(GetOpt(data, keys[0])) ==> r == GetOpt(data, keys[0]).value
    ensures forall i :: 0 <= i < |keys| && Truthy(GetOpt(data, keys[i]))
                        && (forall j :: 0 <= j < i ==> !Truthy(GetOpt(data, keys[j]))) ==>
              r == GetOpt(data, keys[i]).value
  {
    if keys == [] then data
    else if Truthy(GetOpt(data, keys[0])) then GetOpt(data, keys[0]).value
    else
      var r := FirstTruthy(data, keys[1..]);
      assert r != data ==> exists i :: 0 <= i < |keys| && Some(r) == GetOpt(data, keys[i]) && Truthy(Some(r)) by {
        if r != data {
          var i :| 0 <= i < |keys[1..]| && Some(r) == GetOpt(data, keys[1..][i]) && Truthy(Some(r));
          assert keys[1..][i] == keys[i + 1];
        }
      }
      assert (forall i :: 0 <= i < |keys| ==> !Truthy(GetOpt(data, keys[i]))) ==> r == data by {
        if forall i :: 0 <= i < |keys| ==> !Truthy(GetOpt(data, keys[i])) {
          forall i | 0 <= i < |keys[1..]| ensures !Truthy(GetOpt(data, keys[1..][i])) {
            assert keys[1..][i] == keys[i + 1];
          }
        }
      }
      forall i | 0 <= i < |keys| && Truthy(GetOpt(data, keys[i]))
                 && (forall j :: 0 <= j < i ==> !Truthy(GetOpt(data, keys[j])))
        ensures r == GetOpt(data, keys[i]).value
      {
        assert i != 0;
        assert keys[1..][i - 1] == keys[i];
        forall j | 0 <= j < i - 1 ensures !Truthy(GetOpt(data, keys[1..][j])) {
          assert keys[1..][j] == keys[j + 1];
        }
      }
      r
  }

  /** The value a successful mutation resolves to: the body read with `.catch(() => ({}))`, a
      `null` body throwing on its first property read, else the first truthy of `keys` or the body. */
  function Normalised(res: Response, keys: seq<string>): (r: Result<Json, Error>)
    requires keys != []
    ensures JsonOrEmpty(res).JNull? ==> r == Failure(NullAccess(keys[0]))
    ensures !JsonOrEmpty(res).JNull? ==> r == Success(FirstTruthy(JsonOrEmpty(res), keys))
  {
    var data := JsonOrEmpty(res);
    if data.JNull? then Failure(NullAccess(keys[0])) else Success(FirstTruthy(data, keys))
  }

  const CreateFailed := "Failed to create blog"
  const UpdateFailed := "Failed to update blog"
  const DeleteFailed := "Failed to delete blog"
  const LikeFailed := "Failed to toggle like"

  /** The shared shape of the mutations: configuration check, one request, then either the
      error of a non-ok answer or the value read from an ok one. */
  function Mutation(apiUrl: Option<string>, req: string -> Request, fallback: string,
                    read: Response -> Result<Json, Error>, outcome: FetchOutcome): (c: Call<Json>)
    ensures EnsureApiUrl(apiUrl).Failure? ==> c == Call(None, Failure(Error(NotSet)))
    ensures EnsureApiUrl(apiUrl).Success? ==> c.sent == Some(req(apiUrl.value))
    ensures EnsureApiUrl(apiUrl).Success? && outcome.Rejected? ==> c.result == Failure(outcome.error)
    ensures EnsureApiUrl(apiUrl).Success? && outcome.Resolved? && !Ok(outcome.response) ==>
              c.result == Failure(BlogError(outcome.response, fallback))
    ensures EnsureApiUrl(apiUrl).Success? && outcome.Resolved? && Ok(outcome.response) ==>
              c.result == read(outcome.response)
  {
    match EnsureApiUrl(apiUrl)
    case Failure(e) => Call(None, Failure(e))
    case Success(base) =>
      match outcome
      case Rejected(e) => Call(Some(req(base)), Failure(e))
      case Resolved(res) =>
        if !Ok(res) then Call(Some(req(base)), Failure(BlogError(res, fallback)))
        else Call(Some(req(base)), read(res))
  }

  /** `createBlog({title, content, featuredImageFile})`, resolving to `data.blog || data`. */
  function CreateBlog(apiUrl: Option<string>, title: string, content: string, file: File,
                      outcome: FetchOutcome): (c: Call<Json>)
    ensures EnsureApiUrl(apiUrl).Success? ==> c.sent == Some(Request(POST, apiUrl.value + "/blogs",
                                                     FormBody(CreateBlogForm(title, content, file)), true))
    ensures EnsureApiUrl(apiUrl).Failure? ==> c == Call(None, Failure(Error(NotSet)))
    ensures EnsureApiUrl(apiUrl).Success? && outcome.Rejected? ==> c.result == Failure(outcome.error)
    ensures EnsureApiUrl(apiUrl).Success? && outcome.Resolved? && !Ok(outcome.response) ==>
              c.result == Failure(BlogError(outcome.response, CreateFailed))
    ensures EnsureApiUrl(apiUrl).Success? && outcome.Resolved? && Ok(outcome.response) ==>
              c.result == Normalised(outcome.response, ["blog"])
  {
    Mutation(apiUrl, base => Request(POST, base + "/blogs", FormBody(CreateBlogForm(title, content, file)), true),
             CreateFailed, res => Normalised(res, ["blog"]), outcome)
  }

  /** `if (x) form.append(...)`: an absent or empty text is left out. */
  function TextIfTruthy(key: string, value: Option<string>): (form: seq<Entry>)
    ensures form == [] <==> value.None? || value.value == ""
    ensures form != [] ==> form == [Entry(key, Text(value.value))]
  {
    if value.Some? && value.value != "" then [Entry(key, Text(value.value))] else []
  }

  /** The form `updateBlog` sends: title, content and the image, each appended only when truthy. */
  function UpdateBlogForm(title: Option<string>, content: Option<string>, file: Option<File>): (form: seq<Entry>)
    ensures |form| <= 3
    ensures form == [] <==> (title.None? || title.value == "") && (content.None? || content.value == "") && file.None?
  {
    TextIfTruthy("title", title) + TextIfTruthy("content", content)
    + (if file.Some? then [Entry("featured_image", Blob(file.value))] else [])
  }

  /** A key is in the update form exactly when its value was given and truthy. */
  lemma UpdateBlogFormKeys(title: Option<string>, content: Option<string>, file: Option<File>)
    ensures var ks := Keys(UpdateBlogForm(title, content, file));
            && ("title" in ks <==> title.Some? && title.value != "")
            && ("content" in ks <==> content.Some? && content.value != "")
            && ("featured_image" in ks <==> file.Some?)
  {
    var a, b := TextIfTruthy("title", title), TextIfTruthy("content", content);
    var c := if file.Some? then [Entry("featured_image", Blob(file.value))] else [];
    KeysAppend(a + b, c);
    KeysAppend(a, b);
    assert Keys(a) == if title.Some? && title.value != "" then ["title"] else [];
    assert Keys(b) == if content.Some? && content.value != "" then ["content"] else [];
    assert Keys(c) == if file.Some? then ["featured_image"] else [];
  }

  /** `updateBlog({id, title, content, featuredImageFile})`, resolving to
      `data.blog || data.UpdateBlog || data`. */
  function UpdateBlog(apiUrl: Option<string>, id: string, title: Option<string>, content: Option<string>,
                      file: Option<File>, outcome: FetchOutcome): (c: Call<Json>)
    ensures EnsureApiUrl(apiUrl).Success? ==> c.sent == Some(Request(POST, apiUrl.value + "/blogs/update/" + id,
                                                     FormBody(UpdateBlogForm(title, content, file)), true))
    ensures EnsureApiUrl(apiUrl).Failure? ==> c == Call(None, Failure(Error(NotSet)))
    ensures EnsureApiUrl(apiUrl).Success? && outcome.Rejected? ==> c.result == Failure(outcome.error)
    ensures EnsureApiUrl(apiUrl).Success? && outcome.Resolved? && !Ok(outcome.response) ==>
              c.result == Failure(BlogError(outcome.response, UpdateFailed))
    ensures EnsureApiUrl(apiUrl).Success? && outcome.Resolved? && Ok(outcome.response) ==>
              c.result == Normalised(outcome.response, ["blog", "UpdateBlog"])
  {
    Mutation(apiUrl, base => Request(POST, base + "/blogs/update/" + id, FormBody(UpdateBlogForm(title, content, file)), true),
             UpdateFailed, res => Normalised(res, ["blog", "UpdateBlog"]), outcome)
  }

  /** `deleteBlog(id)`: the body of an ok answer is not read. */
  function DeleteBlog(apiUrl: Option<string>, id: string, outcome: FetchOutcome): (c: Call<Json>)
    ensures EnsureApiUrl(apiUrl).Success? ==> c.sent == Some(Request(DELETE, apiUrl.value + "/blogs/delete/" + id, NoBody, true))
    ensures EnsureApiUrl(apiUrl).Failure? ==> c == Call(None, Failure(Error(NotSet)))
    ensures EnsureApiUrl(apiUrl).Success? && outcome.Rejected? ==> c.result == Failure(outcome.error)
    ensures EnsureApiUrl(apiUrl).Success? && outcome.Resolved? && !Ok(outcome.response) ==>
              c.result == Failure(BlogError(outcome.response, DeleteFailed))
    ensures EnsureApiUrl(apiUrl).Success? && outcome.Resolved? && Ok(outcome.response) ==>
              c.result == Success(JNull)
  {
    Mutation(apiUrl, base => Request(DELETE, base + "/blogs/delete/" + id, NoBody, true),
             DeleteFailed, res => Success(JNull), outcome)
  }

  /** `{likes: data.likes ?? 0}`, from a body read with `.catch(() => ({}))`. */
  function Likes(res: Response): (r: Result<Json, Error>)
    ensures JsonOrEmpty(res).JNull? ==> r == Failure(NullAccess("likes"))
    ensures !JsonOrEmpty(res).JNull? ==> r == Success(Nullish(GetOpt(JsonOrEmpty(res), "likes"), JNum(0)))
    ensures res.body.Malformed? ==> r == Success(JNum(0))
  {
    match Get(JsonOrEmpty(res), "likes")
    case Threw(e) => Failure(e)
    case Got(v) => Success(Nullish(v, JNum(0)))
  }

  /** `toggleLikeBlog(id)`, resolving to the `likes` count. */
  function ToggleLikeBlog(apiUrl: Option<string>, id: string, outcome: FetchOutcome): (c: Call<Json>)
    ensures EnsureApiUrl(apiUrl).Success? ==> c.sent == Some(Request(POST, apiUrl.value + "/blogs/like/" + id, NoBody, true))
    ensures EnsureApiUrl(apiUrl).Failure? ==> c == Call(None, Failure(Error(NotSet)))
    ensures EnsureApiUrl(apiUrl).Success? && outcome.Rejected? ==> c.result == Failure(outcome.error)
    ensures EnsureApiUrl(apiUrl).Success? && outcome.Resolved? && !Ok(outcome.response) ==>
              c.result == Failure(BlogError(outcome.response, LikeFailed))
    ensures EnsureApiUrl(apiUrl).Success? && outcome.Resolved? && Ok(outcome.response) ==>
              c.result == Likes(outcome.response)
  {
    Mutation(apiUrl, base => Request(POST, base + "/blogs/like/" + id, NoBody, true), LikeFailed, Likes, outcome)
  }

  /** `getBlogImageUrl(featuredImage)`. */
  function BlogImageUrl(apiUrl: Option<string>, featuredImage: Option<string>): (u: string)
    ensures featuredImage.None? || featuredImage.value == "" ==> u == ""
    ensures featuredImage.Some? && featuredImage.value != "" && EnsureApiUrl(apiUrl).Failure? ==>
              u == featuredImage.value
    ensures featuredImage.Some? && featuredImage.value != "" && EnsureApiUrl(apiUrl).Success? ==>
              u == apiUrl.value + "/uploads/images/" + featuredImage.value
  {
    if featuredImage.None? || featuredImage.value == "" then ""
    else if apiUrl.None? || apiUrl.value == "" then featuredImage.value
    else apiUrl.value + "/uploads/images/" + featuredImage.value
  }

  /** Without a base URL no operation sends anything, and each throws the configuration error. */
  lemma UnconfiguredSendsNothing(apiUrl: Option<string>, id: string, title: string, content: string,
                                 file: File, outcome: FetchOutcome)
    requires apiUrl.None? || apiUrl.value == ""
    ensures FetchBlogs(apiUrl, outcome) == Call(None, Failure(Error(NotSet)))
    ensures CreateBlog(apiUrl, title, content, file, outcome) == Call(None, Failure(Error(NotSet)))
    ensures UpdateBlog(apiUrl, id, Some(title), Some(content), Some(file), outcome) == Call(None, Failure(Error(NotSet)))
    ensures DeleteBlog(apiUrl, id, outcome) == Call(None, Failure(Error(NotSet)))
    ensures ToggleLikeBlog(apiUrl, id, outcome) == Call(None, Failure(Error(NotSet)))
  {
  }

  /** No blog operation treats 401 specially: a 401 with `{"error": "Unauthorized"}` surfaces that
      text, and without an error field the operation's own fallback. */
  lemma NoSpecialUnauthorized(base: string, id: string)
    requires base != ""
    ensures DeleteBlog(Some(base), id, Resolved(Response(401, Parsed(JObj(map["error" := JStr("Unauthorized")])))))
              .result == Failure(Error("Unauthorized"))
    ensures DeleteBlog(Some(base), id, Resolved(Response(401, Parsed(JObj(map[]))))).result
              == Failure(Error(DeleteFailed))
  {
  }

  /** A successful create whose answer is `{"blog": {...}}` resolves to the inner blog; an answer
      without a `blog` field resolves to the whole body. */
  lemma CreateBlogResult(base: string, title: string, content: string, file: File, blog: map<string, Json>)
    requires base != ""
    ensures CreateBlog(Some(base), title, content, file, Resolved(Response(201, Parsed(JObj(map["blog" := JObj(blog)])))))
              .result == Success(JObj(blog))
    ensures "blog" !in blog ==>
              CreateBlog(Some(base), title, content, file, Resolved(Response(201, Parsed(JObj(blog))))).result
              == Success(JObj(blog))
  {
  }
}
