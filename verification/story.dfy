/** The shapes a story takes on the wire: the record the backend returns and
    the body the forms send, with the mappings between their parts. */
module Story {
  import opened Wrappers

  /** An instant, kept opaque: it is only ever displayed, never sent. */
  type Timestamp = int

  /** A chapter as the forms hold it. One added in the form has no `id` and
      carries the moment it was added; one fetched from the backend carries
      its `id` and whatever timestamp the backend supplied. */
  datatype Chapter = Chapter(id: Option<int>, title: string, content: string, updatedAt: Option<Timestamp>)

  /** A tag object in a fetched record (`{id, tag_name}`). */
  datatype TagRecord = TagRecord(id: int, tagName: string)

  /** A story as the backend returns it. */
  datatype StoryRecord = StoryRecord(
    id: int,
    title: string,
    author: string,
    synopsis: string,
    category: string,
    status: string,
    coverImage: string,
    tags: seq<TagRecord>,
    chapters: seq<Chapter>)

  /** `{tag_name}` in a request body. */
  datatype TagPayload = TagPayload(tagName: string)

  /** `{title, content}` in a request body. */
  datatype ChapterPayload = ChapterPayload(title: string, content: string)

  /** The JSON body of a create (POST) or update (PUT) request. */
  datatype StoryPayload = StoryPayload(
    title: string,
    author: string,
    synopsis: string,
    category: string,
    status: string,
    coverImage: string,
    tags: seq<TagPayload>,
    chapters: seq<ChapterPayload>)

  /** `tags.map((tag) => ({tag_name: tag}))`: one object per tag, same order. */
  function FormatTags(tags: seq<string>): (r: seq<TagPayload>)
    ensures |r| == |tags|
    ensures forall k :: 0 <= k < |r| ==> r[k].tagName == tags[k]
  {
    if |tags| == 0 then [] else [TagPayload(tags[0])] + FormatTags(tags[1..])
  }

  /** `chapters.map((c) => ({title: c.title, content: c.content}))`: the id
      and the timestamp are dropped, the order and the text are kept. */
  function FormatChapters(chapters: seq<Chapter>): (r: seq<ChapterPayload>)
    ensures |r| == |chapters|
    ensures forall k :: 0 <= k < |r| ==>
              r[k].title == chapters[k].title && r[k].content == chapters[k].content
  {
    if |chapters| == 0 then []
    else [ChapterPayload(chapters[0].title, chapters[0].content)] + FormatChapters(chapters[1..])
  }

  /** `data.tags.map((tag) => tag.tag_name)`: the names, in order, ids discarded. */
  function TagNames(tags: seq<TagRecord>): (r: seq<string>)
    ensures |r| == |tags|
    ensures forall k :: 0 <= k < |r| ==> r[k] == tags[k].tagName
  {
    if |tags| == 0 then [] else [tags[0].tagName] + TagNames(tags[1..])
  }

  /** Two chapter lists agree on everything that is sent. */
  predicate SameText(chapters: seq<Chapter>, sent: seq<ChapterPayload>)
  {
    && |chapters| == |sent|
    && forall k :: 0 <= k < |sent| ==>
         sent[k].title == chapters[k].title && sent[k].content == chapters[k].content
  }

  /** Dropping ids and timestamps loses nothing else: chapters that agree on
      title and content, in order, format to the same payload. */
  lemma FormatChaptersIgnoresMetadata(a: seq<Chapter>, b: seq<Chapter>)
    requires |a| == |b|
    requires forall k :: 0 <= k < |a| ==> a[k].title == b[k].title && a[k].content == b[k].content
    ensures FormatChapters(a) == FormatChapters(b)
  {
  }
}
