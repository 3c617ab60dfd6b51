/** Turning a draft into a request: the create form checks two fields first
    and posts; the edit form puts whatever it holds. */
module Submit {
  import opened Wrappers
  import opened Story
  import opened Draft

  /** The story endpoint both forms talk to. */
  const StoriesEndpoint: string := "http://127.0.0.1:8000/stories/"

  /** The address of one story, for the edit form's GET and PUT. */
  function StoryUrl(id: string): (r: string)
    ensures |r| == |StoriesEndpoint| + |id|
    ensures r[..|StoriesEndpoint|] == StoriesEndpoint && r[|StoriesEndpoint|..] == id
  {
    StoriesEndpoint + id
  }

  /** Why the create form refused to submit; each is reported by an alert. */
  datatype SubmitError = MissingStatus | MissingCover

  /** The alert shown for a refusal: a non-empty message, a different one for
      each reason, so the user can tell which field to fill in. */
  function AlertText(e: SubmitError): (r: string)
    ensures r != ""
  {
    match e
    case MissingStatus => "Please select a status for the story."
    case MissingCover => "Please upload a cover image."
  }

  /** Different refusals show different alerts. */
  lemma AlertTextsDiffer(a: SubmitError, b: SubmitError)
    ensures AlertText(a) == AlertText(b) <==> a == b
  {
    if a != b {
      assert AlertText(a)[7] != AlertText(b)[7];
    }
  }

  /** The HTTP methods the forms use: POST to create, PUT to update. */
  datatype Verb = Post | Put

  datatype Request = Request(verb: Verb, url: string, body: StoryPayload)

  /** The body both forms build: the scalars and the cover reference as they
      stand, tags as `{tag_name}` objects and chapters as `{title, content}`,
      each in draft order. */
  function BuildPayload(d: Draft): (p: StoryPayload)
    ensures p.title == d.title && p.author == d.author && p.synopsis == d.synopsis
    ensures p.category == d.category && p.status == d.status
    ensures p.coverImage == d.coverImagePath
    ensures |p.tags| == |d.tags|
    ensures forall k :: 0 <= k < |p.tags| ==> p.tags[k].tagName == d.tags[k]
    ensures SameText(d.chapters, p.chapters)
  {
    StoryPayload(d.title, d.author, d.synopsis, d.category, d.status, d.coverImagePath,
                 FormatTags(d.tags), FormatChapters(d.chapters))
  }

  /** The create form's submit: an empty status is refused first, whatever
      the cover; then an empty cover; only a draft with both is posted. */
  function CreateRequest(d: Draft): (r: Result<Request, SubmitError>)
    ensures d.status == "" ==> r == Failure(MissingStatus)
    ensures d.status != "" && d.coverImagePath == "" ==> r == Failure(MissingCover)
    ensures r.Success? <==> d.status != "" && d.coverImagePath != ""
    ensures r.Success? ==>
              r.value.verb == Post && r.value.url == StoriesEndpoint && r.value.body == BuildPayload(d)
  {
    if d.status == "" then Failure(MissingStatus)
    else if d.coverImagePath == "" then Failure(MissingCover)
    else Success(Request(Post, StoriesEndpoint, BuildPayload(d)))
  }

  /** The edit form's submit: no field is checked, so an empty status or
      cover is sent as it is, to the story's own address. */
  function UpdateRequest(id: string, d: Draft): (r: Request)
    ensures r.verb == Put && r.url == StoryUrl(id)
    ensures r.body.status == d.status && r.body.coverImage == d.coverImagePath
    ensures r.body == BuildPayload(d)
  {
    Request(Put, StoryUrl(id), BuildPayload(d))
  }

  /** A form that was just opened cannot be submitted: its status is empty,
      and that is the first thing checked. */
  lemma FreshDraftRejected(cover: Option<string>)
    ensures CreateRequest(PickCover(Empty(), cover)) == Failure(MissingStatus)
    ensures AlertText(CreateRequest(PickCover(Empty(), cover)).error) != AlertText(MissingCover)
  {
  }

  /** Hydrating from a record and building the body gives back the record's
      tag names and chapter texts in order, and its scalars, whatever ids and
      timestamps the record carried. */
  lemma HydrateThenPayload(d: Draft, rec: StoryRecord)
    ensures var p := BuildPayload(Hydrate(d, rec));
              && |p.tags| == |rec.tags|
              && (forall k :: 0 <= k < |p.tags| ==> p.tags[k].tagName == rec.tags[k].tagName)
              && SameText(rec.chapters, p.chapters)
              && p.title == rec.title && p.author == rec.author && p.synopsis == rec.synopsis
              && p.category == rec.category && p.status == rec.status && p.coverImage == rec.coverImage
  {
  }

  /** Two records that differ only in their ids and chapter timestamps lead to
      the same update body. */
  lemma PayloadForgetsServerIds(d: Draft, a: StoryRecord, b: StoryRecord)
    requires a.(id := b.id, tags := b.tags, chapters := b.chapters) == b
    requires TagNames(a.tags) == TagNames(b.tags)
    requires |a.chapters| == |b.chapters|
    requires forall k :: 0 <= k < |a.chapters| ==>
               a.chapters[k].title == b.chapters[k].title && a.chapters[k].content == b.chapters[k].content
    ensures BuildPayload(Hydrate(d, a)) == BuildPayload(Hydrate(d, b))
  {
  }

  /** In the edit form, closing the file dialog without a file keeps the
      fetched cover in the update body; choosing a file replaces it. */
  lemma CoverSurvivesUntilPicked(id: string, d: Draft, rec: StoryRecord, file: Option<string>)
    ensures file.None? ==> UpdateRequest(id, PickCover(Hydrate(d, rec), file)).body.coverImage == rec.coverImage
    ensures file.Some? ==> UpdateRequest(id, PickCover(Hydrate(d, rec), file)).body.coverImage == file.value
  {
  }

  /** A complete create session: fill in title, author and status, choose a
      cover, add one tag and one chapter, and the form posts exactly this. */
  lemma CreateExample(now: Timestamp)
    ensures
      var d0 := SetField(SetField(SetField(Empty(), Title, "Ocean"), Author, "A"), Status, "Publish");
      var d1 := PickCover(d0, Some("blob:1"));
      var d2 := AddTag(d1, "Enter", "ocean").draft;
      var d3 := AddChapter(SetField(SetField(OpenChapterForm(d2), NewChapterTitle, "Ch1"), NewChapterContent, "hello"), now);
      CreateRequest(d3) == Success(Request(Post, StoriesEndpoint,
        StoryPayload("Ocean", "A", "", "", "Publish", "blob:1",
                     [TagPayload("ocean")], [ChapterPayload("Ch1", "hello")])))
  {
    var d0 := SetField(SetField(SetField(Empty(), Title, "Ocean"), Author, "A"), Status, "Publish");
    var d1 := PickCover(d0, Some("blob:1"));
    var d2 := AddTag(d1, "Enter", "ocean").draft;
    var d3 := AddChapter(SetField(SetField(OpenChapterForm(d2), NewChapterTitle, "Ch1"), NewChapterContent, "hello"), now);
    assert d3.tags == ["ocean"];
    assert d3.chapters == [Chapter(None, "Ch1", "hello", Some(now))];
    assert FormatTags(d3.tags) == [TagPayload("ocean")];
    assert FormatChapters(d3.chapters) == [ChapterPayload("Ch1", "hello")];
  }
}
