# Story draft model

A Dafny model of the logic in a small React front-end for managing stories.
A story has a title, author, synopsis, category, status, cover image, tags and
chapters. The model covers three parts:

- **The story draft.** This is the state the create form (`AddStory.js`) and
  the edit form (`EditStory.js`) keep. Both forms hold the same state and
  handle it with the same code (`handleAddTag`, `handleRemoveTag`,
  `handleFileChange`, `handleAddChapter`, the chapter Delete button). One
  `Draft` datatype and one set of pure transitions model both forms.
- **Submission.** The create form refuses to submit without a status, and
  then without a cover, before it posts. The edit form puts whatever it holds.
  Both shape the body the same way:
  - tags become `{tag_name}` objects;
  - chapters become `{title, content}` pairs, dropping ids and timestamps.
- **The story list** (`StoryList.js`):
  - the URLs its search box and filter dialog fetch, built by plain string
    concatenation;
  - how a fetch outcome moves the page between "loading", "error" and the
    table.

Files (one module each):

- `wrappers.dfy`: `Option` (a file chosen or not) and `Result` (validation
  and network outcomes).
- `indexed.dfy`: removal by position, written the way the forms write it,
  `xs.filter((_, i) => i !== index)`, and proved equal to slice removal.
- `story.dfy`: the fetched record, the request body, and the mappings between
  their tags and chapters.
- `draft.dfy`: the `Draft` and its transitions, hydration from a fetched
  record, and lemmas about sequences of edits.
- `submit.dfy`: the shared body builder, the create request (with its two
  checks) and the update request (without checks).
- `query.dfy`: a reader of a URL's text. The query is the text after the
  first `?`, up to a `#` that starts the fragment. It is split on `&`, and a
  key takes the value of the first `key=value` piece that names it. No percent
  or `+` decoding is done. The list's URLs are checked against this reader.
- `storylist.dfy`: the list page's URLs, state, fetch outcomes and screen.

Parameters stand in for everything outside the code:

- the fetch outcome is a `Result` argument;
- the time a chapter is added (`new Date()`) is a `Timestamp` argument;
- the result of the file dialog is an `Option<string>`, where `None` means no
  file was chosen and `Some(url)` is the local object URL.

What the code does, as modelled:

- Hydration accepts any record. No field of the fetched record is checked.
- A tag is accepted when the raw input is not `''`. There is no trim, so a
  value of spaces becomes a tag, and a repeated value becomes a second tag.
- Create-mode submit stops at the first failed check: status first, then
  cover. Title, author, synopsis and category are not checked by the handler.
- Category and status are free strings. The selects offer `''`, Technology,
  Health and Sport for category, and Publish and Draft for status.

## Model

| member | source | states |
|---|---|---|
| Indexed.RemoveAt | src/components/AddStory.js:31-33 | In range, the element at `index` is removed: `s[..index] + s[index+1..]`, one shorter, earlier elements in place, later ones shifted down by one. Out of range (negative or too large), the sequence is unchanged. |
| Indexed.KeepOthersIsSlice | src/components/EditStory.js:56 | The element-by-element filter on `i !== index`, counting from any start position, equals slice removal in range and the identity out of range. |
| Story.FormatTags | src/components/AddStory.js:70-72 | One `{tag_name}` object per tag, same length, object k naming tag k. |
| Story.FormatChapters | src/components/AddStory.js:74-77 | One `{title, content}` pair per chapter, same length and order, texts equal to the chapter's. |
| Story.TagNames | src/components/EditStory.js:39 | Fetched tag objects become their names, same length and order, ids discarded. |
| Story.FormatChaptersIgnoresMetadata | src/components/EditStory.js:89-92 | Two chapter lists that agree on title and content, position by position, format to the same body whatever their ids and timestamps. |
| Draft.Empty | src/components/AddStory.js:9-20 | A newly opened form has every text input empty, no cover, no tags, no chapters and the chapter sub-form hidden. |
| Draft.SetField | src/components/AddStory.js:122-209 | An input's change sets exactly its field to the typed value. Every other field, the tags, the chapters, the cover and the sub-form flag stay as they were. |
| Draft.AddTag | src/components/AddStory.js:24-29 | Enter over a non-empty raw value appends that value (untrimmed) after the old tags, which are unchanged, and clears the input. Any other key, or an empty value, changes neither the draft nor the input. |
| Draft.RemoveTag | src/components/AddStory.js:31-33 | In range, exactly the tag at `index` goes and later tags shift down. Out of range, the draft is unchanged. Nothing but the tags ever changes. |
| Draft.PickCover | src/components/AddStory.js:36-42 | No file keeps the draft as it was. A chosen file's reference replaces the cover, and nothing else changes. |
| Draft.OpenChapterForm | src/components/AddStory.js:220 | The chapter sub-form is shown; nothing else changes. |
| Draft.AddChapter | src/components/AddStory.js:45-55 | Exactly one chapter is appended after the unchanged old ones. Its title and content are the buffers' values, it has no id, and its timestamp is `now`. Both buffers are emptied and the sub-form hidden. Nothing else changes. |
| Draft.DeleteChapter | src/components/AddStory.js:190 | Same positional semantics as tag removal, on chapters: one removed in range, none out of range, nothing but the chapters changes. |
| Draft.Hydrate | src/components/EditStory.js:32-41 | The scalars and the cover are the record's. The tags are the record's tag names, same order. The chapters are the record's chapters verbatim. The chapter buffers and sub-form flag are untouched. |
| Draft.OnStoryFetched | src/components/EditStory.js:25-44 | A fetched record hydrates the draft: title, author, synopsis, category, status and cover become the record's, the tags its tag names in order, the chapters its chapters. The chapter buffers and the sub-form flag are untouched. A failed fetch (only logged) leaves the draft unchanged. |
| Draft.AddTagThenRemoveRestores | src/components/EditStory.js:48-57 | Adding a non-empty tag with Enter and then removing it at its position (the old length) gives back the original draft. |
| Draft.AddChapterThenDeleteRestores | src/components/EditStory.js:69-208 | Adding a chapter and deleting it at its position restores the chapter list. Only the emptied buffers and the hidden sub-form remain. |
| Draft.EnterTagsAppendsInOrder | src/components/AddStory.js:24-28 | Pressing Enter over a run of values appends the non-empty ones in typing order, duplicates and whitespace included, and changes nothing but the tags. |
| Submit.AlertText | src/components/AddStory.js:60-68 | Each refusal shows a non-empty alert. |
| Submit.AlertTextsDiffer | src/components/AddStory.js:60-68 | The missing-status and missing-cover alerts differ, so the alert tells which field is missing. |
| Submit.StoryUrl | src/components/EditStory.js:25 | One story's address is the stories endpoint followed by the id, unchanged. |
| Submit.BuildPayload | src/components/AddStory.js:70-88 | The body's scalars and `cover_image` equal the draft's. Its tags match the draft's by position and name. Its chapters match the draft's by position in title and content. |
| Submit.CreateRequest | src/components/AddStory.js:60-98 | An empty status is refused (whatever the cover), then an empty cover. A request is produced if and only if both are non-empty; it is a POST to the stories endpoint carrying the shaped body. |
| Submit.UpdateRequest | src/components/EditStory.js:82-111 | Always a PUT to the story's own address with the shaped body. No check is made, so an empty status or cover is sent as it is. |
| Submit.FreshDraftRejected | src/components/AddStory.js:13-63 | A newly opened create form, with or without a cover chosen, is refused for its missing status, which is checked first. The alert shown is not the cover alert. |
| Submit.HydrateThenPayload | src/components/EditStory.js:32-103 | Hydrating from a record and building the body gives the record's tag names and chapter title/content pairs, in order, and its scalars and cover. |
| Submit.PayloadForgetsServerIds | src/components/EditStory.js:85-103 | Two records that differ only in story id, tag ids and chapter ids/timestamps lead to the same update body. |
| Submit.CoverSurvivesUntilPicked | src/components/EditStory.js:60-66 | In the edit form, closing the file dialog without a file sends the fetched cover. Choosing a file sends the new reference. |
| Submit.CreateExample | src/components/AddStory.js:24-88 | A full create session posts exactly the expected body: title, author, status, cover, one tag and one chapter, with the other fields empty. |
| StoryList.Initial | src/components/StoryList.js:6-12 | The first render is loading, with no stories, no error, empty search and filter inputs and the filter dialog closed. Its screen is the loading notice. |
| StoryList.SearchUrl | src/components/StoryList.js:36-42 | An empty query gives the collection endpoint. A non-empty one gives the search endpoint with `?query=` followed by the query, character for character. |
| StoryList.SearchQueryReadsBack | src/components/StoryList.js:36-42 | A non-empty query always yields a `query` parameter. It is read back as the query exactly when the query contains neither `&` nor `#`. |
| StoryList.SearchQueryCutShort | src/components/StoryList.js:38 | When the query contains `&` or `#`, the value read back is a proper prefix of the query that stops at the first of them, so it differs from the query typed. |
| StoryList.Search | src/components/StoryList.js:18-42 | An empty query fetches the collection endpoint. A non-empty one fetches the search endpoint with `?query=` and the query appended. Its `query` parameter is present, and reads back as the query if and only if the query holds no `&` and no `#`. |
| StoryList.FilterUrl | src/components/StoryList.js:44-47 | The filter URL is the search endpoint, a `?`, and then the filter query. |
| StoryList.FilterQueryLayout | src/components/StoryList.js:45-47 | A chosen category contributes `category=<c>&` at the start. A chosen status contributes `status=<s>` at the end. An unchosen filter contributes nothing, so the length is the sum of the chosen pieces. |
| StoryList.FilterUrlShape | src/components/StoryList.js:44-47 | With both filters empty the URL is exactly the search endpoint ending in `?`. With only a category it ends in `&`. For a status without `&`, that is the only case where it ends in `&`. The search endpoint with `?` is always a prefix. |
| StoryList.FilterUrlReadsBack | src/components/StoryList.js:44-48 | For a category and a status without `&` or `#`, each chosen filter is read back with its chosen value and an unchosen one is absent. |
| StoryList.ApplyFilter | src/components/StoryList.js:44-50 | The filter dialog is closed and nothing else in the page state changes. The fetched URL is the filter URL, under the search endpoint. For values without `&` or `#` it reads back the chosen filters. |
| StoryList.ApplyFetch | src/components/StoryList.js:26-33 | Either outcome ends loading. A success replaces the stories and leaves any earlier error. A failure records its message and keeps the stories. The search and filter inputs are untouched. |
| StoryList.View | src/components/StoryList.js:52-58 | While loading, the loading notice shows. Otherwise an error notice shows if and only if a non-empty error message is recorded, and it carries that message. Otherwise the table shows the current stories. |
| StoryList.FirstLoad | src/components/StoryList.js:6-58 | The first render shows the loading notice. After the fetch made on mount, the page shows the fetched stories, or the failure's non-empty message. |
| StoryList.ErrorIsSticky | src/components/StoryList.js:26-58 | Once a non-empty error is recorded, no later run of fetch outcomes (successes included, and failures with a message) brings the table back. |

## Left out

- Network calls (`fetch`), `response.ok` handling, JSON encoding and the
  promise chains are left out. A fetch is only a success or failure argument.
  The redirect after a successful submit and the logged errors are not
  modelled.
- `URL.createObjectURL` and file objects are left out. The cover is an opaque
  string, and the file dialog's result is an `Option<string>`.
- `new Date()` and the `date-fns` formatting of `updatedAt` are left out.
  Timestamps are opaque and only displayed, never sent.
- Rendering is left out: Bootstrap, the Quill editor, the cancel dialog in the
  create form and the table layout. The browser's own `required`-attribute
  form validation, which runs before the submit handler, is also left out.
- `alert` is left out as a dialog. Its two texts are kept as
  `Submit.AlertText` of the refusal reason.
- `StoryDetail.js` (a read-only fetch and render) and `App.js` (routing) are
  not part of this model.
- Hydration from a record whose fields are missing or of the wrong JavaScript
  type is not modelled. Records are well-typed here.
- StoryList.FilterUrlReadsBack: stated only for a category and status without
  `&` or `#`. An unencoded `&` in a value would start a new parameter, and a
  `#` would start the fragment. The dialog's options contain neither.
- StoryList.SearchQueryReadsBack: the reader does no percent or `+` decoding.
  A query with `%` or `+` is compared as the raw characters sent, not as a
  server would decode them.
- StoryList.SearchQueryCutShort: when a key repeats, the reader takes the first
  piece. Many servers take the last, so a query such as `a&query=b` may be
  read differently there.
- Draft.AddTag: Enter in the tag input also submits the enclosing form, since
  the handler does not call `preventDefault` and the form has a submit button
  (AddStory.js:160 and 229, EditStory.js:178 and 244). The model treats Enter
  as a tag edit only. In the edit form that submit sends the PUT and leaves
  the page; in the create form it runs the create checks.
- Draft.EnterTagsAppendsInOrder: for the same reason, "nothing but the tags
  changes" holds for the draft only. Each Enter may also submit the form.
- StoryList.ErrorIsSticky: stated only when later failures carry a non-empty
  message. An empty message is falsy in the page's check, so it would show the
  table again.
