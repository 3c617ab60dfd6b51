/** The story being composed (create form) or edited (edit form). Both forms
    keep the same state and handle tags, chapters and the cover with the same
    code, so one `Draft` and one set of transitions serve both. */
module Draft {
  import opened Wrappers
  import opened Story
  import Indexed

  datatype Draft = Draft(
    title: string,
    author: string,
    synopsis: string,
    category: string,
    status: string,
    coverImagePath: string,
    tags: seq<string>,
    chapters: seq<Chapter>,
    showChapterForm: bool,
    newChapterTitle: string,
    newChapterContent: string)

  /** The state a form starts in: every text empty, no tags, no chapters,
      the chapter sub-form hidden. */
  function Empty(): (r: Draft)
    ensures forall f :: Get(r, f) == ""
    ensures r.coverImagePath == "" && r.tags == [] && r.chapters == [] && !r.showChapterForm
  {
    Draft("", "", "", "", "", "", [], [], false, "", "")
  }

  /** The text inputs bound to the draft by `onChange` setters. */
  datatype Field = Title | Author | Synopsis | Category | Status | NewChapterTitle | NewChapterContent

  function Get(d: Draft, f: Field): string
  {
    match f
    case Title => d.title
    case Author => d.author
    case Synopsis => d.synopsis
    case Category => d.category
    case Status => d.status
    case NewChapterTitle => d.newChapterTitle
    case NewChapterContent => d.newChapterContent
  }

  /** An input's `onChange`: the one field takes the typed value and nothing
      else in the draft moves. */
  function SetField(d: Draft, f: Field, v: string): (r: Draft)
    ensures Get(r, f) == v
    ensures forall g :: g != f ==> Get(r, g) == Get(d, g)
    ensures r.coverImagePath == d.coverImagePath && r.tags == d.tags && r.chapters == d.chapters
    ensures r.showChapterForm == d.showChapterForm
  {
    match f
    case Title => d.(title := v)
    case Author => d.(author := v)
    case Synopsis => d.(synopsis := v)
    case Category => d.(category := v)
    case Status => d.(status := v)
    case NewChapterTitle => d.(newChapterTitle := v)
    case NewChapterContent => d.(newChapterContent := v)
  }

  /** The draft after a key press in the tag input, and what that input then shows. */
  datatype TagKeyResult = TagKeyResult(draft: Draft, input: string)

  /** `handleAddTag`: only Enter over a non-empty raw value adds a tag. There
      is no trimming, so a value of spaces is added as it is. The input is
      cleared after an add and left alone otherwise. */
  function AddTag(d: Draft, key: string, value: string): (r: TagKeyResult)
    ensures key == "Enter" && value != "" ==>
              && |r.draft.tags| == |d.tags| + 1
              && r.draft.tags[..|d.tags|] == d.tags
              && r.draft.tags[|d.tags|] == value
              && r.draft == d.(tags := r.draft.tags)
              && r.input == ""
    ensures !(key == "Enter" && value != "") ==> r.draft == d && r.input == value
  {
    if key == "Enter" && value != "" then TagKeyResult(d.(tags := d.tags + [value]), "")
    else TagKeyResult(d, value)
  }

  /** `handleRemoveTag(index)`: the tag at `index` goes and later tags move
      down one place; an index that names no tag changes nothing. */
  function RemoveTag(d: Draft, index: int): (r: Draft)
    ensures 0 <= index < |d.tags| ==>
              && |r.tags| == |d.tags| - 1
              && (forall k :: 0 <= k < index ==> r.tags[k] == d.tags[k])
              && (forall k :: index <= k < |r.tags| ==> r.tags[k] == d.tags[k + 1])
    ensures !(0 <= index < |d.tags|) ==> r == d
    ensures r == d.(tags := r.tags)
  {
    d.(tags := Indexed.RemoveAt(d.tags, index))
  }

  /** `handleFileChange`: `None` is a file dialog closed with no file, which
      keeps the current cover; a chosen file's local reference replaces it. */
  function PickCover(d: Draft, file: Option<string>): (r: Draft)
    ensures file.None? ==> r == d
    ensures file.Some? ==> r.coverImagePath == file.value && r == d.(coverImagePath := r.coverImagePath)
  {
    match file
    case None => d
    case Some(url) => d.(coverImagePath := url)
  }

  /** The "Add New Chapter" button: show the chapter sub-form. */
  function OpenChapterForm(d: Draft): (r: Draft)
    ensures r.showChapterForm
    ensures r == d.(showChapterForm := true)
  {
    d.(showChapterForm := true)
  }

  /** `handleAddChapter`, with `now` standing for `new Date()`: exactly one
      chapter is appended, built from the two buffers and stamped `now`; then
      both buffers are emptied and the sub-form hidden. The buffers are taken
      as they are, so an empty title or content is accepted. */
  function AddChapter(d: Draft, now: Timestamp): (r: Draft)
    ensures |r.chapters| == |d.chapters| + 1
    ensures r.chapters[..|d.chapters|] == d.chapters
    ensures var c := r.chapters[|d.chapters|];
              c.title == d.newChapterTitle && c.content == d.newChapterContent &&
              c.id.None? && c.updatedAt == Some(now)
    ensures r.newChapterTitle == "" && r.newChapterContent == "" && !r.showChapterForm
    ensures r == d.(chapters := r.chapters, newChapterTitle := "", newChapterContent := "", showChapterForm := false)
  {
    var chapter := Chapter(None, d.newChapterTitle, d.newChapterContent, Some(now));
    d.(chapters := d.chapters + [chapter], newChapterTitle := "", newChapterContent := "",
       showChapterForm := false)
  }

  /** A chapter row's Delete button: the same positional filter as for tags. */
  function DeleteChapter(d: Draft, index: int): (r: Draft)
    ensures 0 <= index < |d.chapters| ==>
              && |r.chapters| == |d.chapters| - 1
              && (forall k :: 0 <= k < index ==> r.chapters[k] == d.chapters[k])
              && (forall k :: index <= k < |r.chapters| ==> r.chapters[k] == d.chapters[k + 1])
    ensures !(0 <= index < |d.chapters|) ==> r == d
    ensures r == d.(chapters := r.chapters)
  {
    d.(chapters := Indexed.RemoveAt(d.chapters, index))
  }

  /** The edit form filling itself from a fetched record: scalars copied,
      tags reduced to their names in order, chapters taken whole. The chapter
      buffers and the sub-form flag are not touched. */
  function Hydrate(d: Draft, rec: StoryRecord): (r: Draft)
    ensures r.title == rec.title && r.author == rec.author && r.synopsis == rec.synopsis
    ensures r.category == rec.category && r.status == rec.status
    ensures r.coverImagePath == rec.coverImage
    ensures |r.tags| == |rec.tags|
    ensures forall k :: 0 <= k < |r.tags| ==> r.tags[k] == rec.tags[k].tagName
    ensures r.chapters == rec.chapters
    ensures r.showChapterForm == d.showChapterForm
    ensures r.newChapterTitle == d.newChapterTitle && r.newChapterContent == d.newChapterContent
  {
    d.(title := rec.title, author := rec.author, synopsis := rec.synopsis,
       category := rec.category, status := rec.status, coverImagePath := rec.coverImage,
       tags := TagNames(rec.tags), chapters := rec.chapters)
  }

  /** The end of the edit form's fetch: a record hydrates the draft, a
      failure (only logged) leaves it as it was. */
  function OnStoryFetched(d: Draft, outcome: Result<StoryRecord, string>): (r: Draft)
    ensures outcome.Failure? ==> r == d
    ensures outcome.Success? ==> r == Hydrate(d, outcome.value)
    ensures outcome.Success? ==> r.title == outcome.value.title && r.author == outcome.value.author
    ensures outcome.Success? ==> r.synopsis == outcome.value.synopsis && r.category == outcome.value.category
    ensures outcome.Success? ==> r.status == outcome.value.status && r.coverImagePath == outcome.value.coverImage
    ensures outcome.Success? ==> r.tags == TagNames(outcome.value.tags) && r.chapters == outcome.value.chapters
    ensures outcome.Success? ==> r.showChapterForm == d.showChapterForm
    ensures outcome.Success? ==>
              r.newChapterTitle == d.newChapterTitle && r.newChapterContent == d.newChapterContent
  {
    match outcome
    case Success(rec) => Hydrate(d, rec)
    case Failure(_) => d
  }

  /** Removing the tag just added at the end undoes the add. */
  lemma AddTagThenRemoveRestores(d: Draft, value: string)
    requires value != ""
    ensures RemoveTag(AddTag(d, "Enter", value).draft, |d.tags|) == d
  {
  }

  /** Deleting the chapter just added at the end restores the chapter list;
      only the emptied buffers and the hidden sub-form remain of the add. */
  lemma AddChapterThenDeleteRestores(d: Draft, now: Timestamp)
    ensures DeleteChapter(AddChapter(d, now), |d.chapters|)
              == d.(newChapterTitle := "", newChapterContent := "", showChapterForm := false)
  {
  }

  /** The non-empty values among `values`, in order. */
  function NonEmpty(values: seq<string>): seq<string>
  {
    if |values| == 0 then []
    else (if values[0] != "" then [values[0]] else []) + NonEmpty(values[1..])
  }

  /** Pressing Enter over each of `values` in turn. */
  function EnterTags(d: Draft, values: seq<string>): Draft
    decreases |values|
  {
    if |values| == 0 then d
    else EnterTags(AddTag(d, "Enter", values[0]).draft, values[1..])
  }

  /** A run of Enter presses appends the non-empty values in the order they
      were typed -- duplicates and whitespace included -- and touches nothing
      but the tags. */
  lemma {:induction false} EnterTagsAppendsInOrder(d: Draft, values: seq<string>)
    ensures EnterTags(d, values).tags == d.tags + NonEmpty(values)
    ensures EnterTags(d, values) == d.(tags := EnterTags(d, values).tags)
    decreases |values|
  {
    if |values| != 0 {
      var next := AddTag(d, "Enter", values[0]).draft;
      EnterTagsAppendsInOrder(next, values[1..]);
      if values[0] != "" {
        assert next.tags == d.tags + [values[0]];
        assert d.tags + [values[0]] + NonEmpty(values[1..]) == d.tags + ([values[0]] + NonEmpty(values[1..]));
      } else {
        assert NonEmpty(values) == NonEmpty(values[1..]);
      }
    }
  }
}
