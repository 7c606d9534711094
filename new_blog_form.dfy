/** The new-blog form: title, content, a status, a tag list edited through a
    text box, and a required featured image; submitting creates the post and
    goes back to the blog list. */
module NewBlogForm {
  import opened Js
  import opened Http
  import opened ListEdits
  import opened BlogsApi

  datatype BlogStatus = Draft | Published

  datatype FormData = FormData(title: string, content: string, status: BlogStatus, tags: seq<string>, newTag: string)

  const Empty := FormData("", "", Draft, [], "")
  const NoImage := "Please select a featured image"
  const SubmitFailed := "Failed to create blog"

  /** A tag as the form stores it: non-empty and without surrounding white space. */
  predicate IsTag(t: string) {
    t != "" && Trim(t) == t
  }

  /** Tags are compared by their text. */
  function Same(t: string): string {
    t
  }

  /** The tags are distinct, and each is a proper tag. */
  predicate TagsWellFormed(tags: seq<string>) {
    UniqueKeys(tags, Same) && forall i :: 0 <= i < |tags| ==> IsTag(tags[i])
  }

  /** `handleAddTag`: the trimmed text is appended and the box cleared, unless it is empty or
      already a tag, in which case nothing changes (the box keeps its text). */
  function AddTag(f: FormData): (g: FormData)
    ensures Trim(f.newTag) == "" || Trim(f.newTag) in f.tags ==> g == f
    ensures Trim(f.newTag) != "" && Trim(f.newTag) !in f.tags ==>
              g == f.(tags := f.tags + [Trim(f.newTag)], newTag := "")
  {
    var t := Trim(f.newTag);
    if t != "" && t !in f.tags then f.(tags := f.tags + [t], newTag := "") else f
  }

  /** `handleRemoveTag(tag)`: every copy of the tag is dropped, the others keep their order. */
  function RemoveTag(f: FormData, tag: string): (g: FormData)
    ensures g.title == f.title && g.content == f.content && g.status == f.status && g.newTag == f.newTag
    ensures g.tags == Without(f.tags, tag, Same)
    ensures tag !in g.tags
  {
    f.(tags := Without(f.tags, tag, Same))
  }

  /** Adding a tag keeps the list well formed. */
  lemma AddTagPreserves(f: FormData)
    requires TagsWellFormed(f.tags)
    ensures TagsWellFormed(AddTag(f).tags)
  {
    var t := Trim(f.newTag);
    if t != "" && t !in f.tags {
      TrimIdempotent(f.newTag);
      assert IsTag(t);
      var tags := f.tags + [t];
      forall i, j | 0 <= i < j < |tags| ensures Same(tags[i]) != Same(tags[j]) {
        if j == |f.tags| {
          assert tags[i] == f.tags[i];
        }
      }
    }
  }

  /** Removing a tag keeps the list well formed. */
  lemma RemoveTagPreserves(f: FormData, tag: string)
    requires TagsWellFormed(f.tags)
    ensures TagsWellFormed(RemoveTag(f, tag).tags)
  {
    var r := Without(f.tags, tag, Same);
    WithoutKeepsUnique(f.tags, tag, Same);
    WithoutMembers(f.tags, tag, Same);
    forall i | 0 <= i < |r| ensures IsTag(r[i]) {
      var j :| 0 <= j < |f.tags| && f.tags[j] == r[i];
    }
  }

  /** Adding the same text twice adds one tag: the second attempt finds it already there. */
  lemma AddTagTwice(f: FormData, text: string)
    ensures var g := AddTag(f.(newTag := text));
            AddTag(g.(newTag := text)).tags == g.tags
  {
  }

  /** Removing a tag just added gives back the list it was added to. */
  lemma RemoveAfterAdd(f: FormData)
    requires Trim(f.newTag) != "" && Trim(f.newTag) !in f.tags
    ensures RemoveTag(AddTag(f), Trim(f.newTag)).tags == f.tags
  {
    var t := Trim(f.newTag);
    WithoutAbsent(f.tags, t, Same);
    WithoutAppend(f.tags, [t], t, Same);
    assert Without([t], t, Same) == [] by {
      assert [t][1..] == [];
    }
  }

  /** White space around a tag is ignored: " news " is stored as "news". */
  lemma AddTagTrims()
    ensures AddTag(Empty.(newTag := " news ")).tags == ["news"]
  {
    assert Trim(" news ") == "news" by {
      assert IsWhiteSpace(' ') && !IsWhiteSpace('n') && !IsWhiteSpace('s');
      assert " news "[1..] == "news ";
      assert TrimStart("news ") == "news ";
      assert TrimStart(" news ") == "news ";
      assert "news "[..4] == "news";
      assert TrimEnd("news") == "news";
      assert TrimEnd("news ") == "news";
    }
    assert "news" !in Empty.tags;
  }

  /** A text that is already a proper, new tag is appended as it is. */
  lemma AddProperTag(f: FormData)
    requires IsTag(f.newTag) && f.newTag !in f.tags
    ensures AddTag(f).tags == f.tags + [f.newTag] && AddTag(f).newTag == ""
  {
  }

  datatype Field = Title | Content

  class Form {
    const apiUrl: Option<string>
    var formData: FormData
    var featuredFile: Option<File>
    var submitting: bool
    var alerts: seq<string>
    var navigations: seq<Nav>
    var requests: seq<Request>
    /** Every value `submitting` has taken, oldest first. */
    ghost var submittingHistory: seq<bool>

    ghost predicate Valid()
      reads this
    {
      TagsWellFormed(formData.tags) && submittingHistory != [] && submittingHistory[|submittingHistory| - 1] == submitting
    }

    constructor (apiUrl: Option<string>)
      ensures Valid() && this.apiUrl == apiUrl
      ensures formData == Empty && featuredFile.None? && !submitting
      ensures alerts == [] && navigations == [] && requests == []
      ensures submittingHistory == [false]
    {
      this.apiUrl := apiUrl;
      formData := Empty;
      featuredFile := None;
      submitting := false;
      alerts := [];
      navigations := [];
      requests := [];
      submittingHistory := [false];
    }

    method HandleAddTag()
      requires Valid()
      modifies this
      ensures Valid()
      ensures formData == AddTag(old(formData))
      ensures featuredFile == old(featuredFile) && submitting == old(submitting) && alerts == old(alerts)
      ensures navigations == old(navigations) && requests == old(requests)
      ensures submittingHistory == old(submittingHistory)
    {
      AddTagPreserves(formData);
      formData := AddTag(formData);
    }

    method HandleRemoveTag(tag: string)
      requires Valid()
      modifies this
      ensures Valid()
      ensures formData == RemoveTag(old(formData), tag)
      ensures featuredFile == old(featuredFile) && submitting == old(submitting) && alerts == old(alerts)
      ensures navigations == old(navigations) && requests == old(requests)
      ensures submittingHistory == old(submittingHistory)
    {
      RemoveTagPreserves(formData, tag);
      formData := RemoveTag(formData, tag);
    }

    /** The title and content inputs. */
    method EditText(field: Field, value: string)
      requires Valid()
      modifies this
      ensures Valid()
      ensures formData == match field
                          case Title => old(formData).(title := value)
                          case Content => old(formData).(content := value)
      ensures featuredFile == old(featuredFile) && submitting == old(submitting) && alerts == old(alerts)
      ensures navigations == old(navigations) && requests == old(requests)
      ensures submittingHistory == old(submittingHistory)
    {
      formData := match field
                  case Title => formData.(title := value)
                  case Content => formData.(content := value);
    }

    /** The status select. */
    method EditStatus(status: BlogStatus)
      requires Valid()
      modifies this
      ensures Valid()
      ensures formData == old(formData).(status := status)
      ensures featuredFile == old(featuredFile) && submitting == old(submitting) && alerts == old(alerts)
      ensures navigations == old(navigations) && requests == old(requests)
      ensures submittingHistory == old(submittingHistory)
    {
      formData := formData.(status := status);
    }

    /** The tag text box. */
    method EditNewTag(value: string)
      requires Valid()
      modifies this
      ensures Valid()
      ensures formData == old(formData).(newTag := value)
      ensures featuredFile == old(featuredFile) && submitting == old(submitting) && alerts == old(alerts)
      ensures navigations == old(navigations) && requests == old(requests)
      ensures submittingHistory == old(submittingHistory)
    {
      formData := formData.(newTag := value);
    }

    /** The file input: the first picked file, or none. */
    method SelectImage(files: seq<File>)
      requires Valid()
      modifies this
      ensures Valid()
      ensures featuredFile == if files == [] then None else Some(files[0])
      ensures formData == old(formData) && submitting == old(submitting) && alerts == old(alerts)
      ensures navigations == old(navigations) && requests == old(requests)
      ensures submittingHistory == old(submittingHistory)
    {
      featuredFile := if files == [] then None else Some(files[0]);
    }

    /** `handleSubmit`: without an image only an alert is shown. Otherwise `submitting` is raised,
        the post created from title and content (status and tags are not sent), and `submitting`
        lowered again; success goes to '/dashboard/blogs', failure shows an alert. */
    method HandleSubmit(outcome: FetchOutcome)
      requires Valid()
      modifies this
      ensures Valid()
      ensures formData == old(formData) && featuredFile == old(featuredFile)
      ensures old(featuredFile).None? ==>
                submitting == old(submitting) && alerts == old(alerts) + [NoImage] && navigations == old(navigations)
                && requests == old(requests) && submittingHistory == old(submittingHistory)
      ensures old(featuredFile).Some? ==>
                var c := CreateBlog(apiUrl, formData.title, formData.content, old(featuredFile).value, outcome);
                && !submitting && submittingHistory == old(submittingHistory) + [true, false]
                && requests == old(requests) + (if c.sent.Some? then [c.sent.value] else [])
                && (c.result.Success? ==> navigations == old(navigations) + [Push("/dashboard/blogs")] && alerts == old(alerts))
                && (c.result.Failure? ==>
                      navigations == old(navigations) && alerts == old(alerts) + [MessageOr(c.result.error, SubmitFailed)])
    {
      if featuredFile.None? {
        alerts := alerts + [NoImage];
        return;
      }
      submitting := true;
      submittingHistory := submittingHistory + [true];
      var c := CreateBlog(apiUrl, formData.title, formData.content, featuredFile.value, outcome);
      Settle(c);
    }

    /** The rest of `handleSubmit` once the create call `c` has settled: record what was sent,
        navigate or alert, and lower `submitting`. */
    method Settle(c: Call<Json>)
      requires Valid() && submitting
      modifies this
      ensures Valid() && !submitting
      ensures formData == old(formData) && featuredFile == old(featuredFile)
      ensures submittingHistory == old(submittingHistory) + [false]
      ensures requests == old(requests) + (if c.sent.Some? then [c.sent.value] else [])
      ensures c.result.Success? ==> navigations == old(navigations) + [Push("/dashboard/blogs")] && alerts == old(alerts)
      ensures c.result.Failure? ==>
                navigations == old(navigations) && alerts == old(alerts) + [MessageOr(c.result.error, SubmitFailed)]
    {
      if c.sent.Some? {
        requests := requests + [c.sent.value];
      }
      match c.result {
        case Success(_) =>
          navigations := navigations + [Push("/dashboard/blogs")];
        case Failure(e) =>
          alerts := alerts + [MessageOr(e, SubmitFailed)];
      }
      submitting := false;
      submittingHistory := submittingHistory + [false];
    }
  }
}
