# Audio comments data source

This project models the in-memory store behind the AudioComments prototype:
the `AudioDataSource` object that keeps the ordered list of recorded audio
comments (newest first) and the comment currently selected in the player.
Three things change the list in place:

- a finished recording is prepended, provided the recorder produced a file
  location;
- `delete(at:)` removes the entries at a set of list positions (no view shown
  here calls it);
- assigning the current comment with the same id as before is a rename, and it
  overwrites the first list entry with that id; assigning one with a different
  id is a plain selection and leaves the list alone.

The model has three modules:

- `Comments` (`comments.dfy`): the `AudioComment` record (id, title, optional
  file location), the empty placeholder comment, and the distinct-id predicates.
- `CommentList` (`comment_list.dfy`): value-level definitions of the first-match
  search, the rename overwrite and the removal of a set of offsets, with the
  lemmas proved about them.
- `DataSource` (`data_source.dfy`): the class `AudioDataSource` with a
  `seq<AudioComment>` field and methods that reassign it. Each method is proved
  against the definitions in `CommentList`, and each keeps the invariant that
  no two comments share an id.

The record follows the way callers use it, not the struct as it is declared.
`AudioComments/AudioComments/Model/AudioComment.swift` declares only an id and
a constant title. `AudioDataSource.swift:39` builds comments with `title:url:`,
`ContentView.swift:39` reads `.url`, and `ContentView.swift:147` edits `title`
through a binding. So the model's record has an id, a title and an optional url.

Two details of the code are worth stating plainly:
- `delete(at:)` removes entries by list position (an `IndexSet`), not by
  identifier.
- A rename replaces the whole list entry with the current comment, not only its
  title. When the current comment was selected from the list and then only its
  title was edited, `RenameTitleOnly` shows that the entry's title is the only
  thing that changes.

Non-deterministic inputs are parameters:
- each `UUID()` is an id parameter, with the precondition that it is fresh;
- the timestamp title built from the current date is a `title` parameter;
- the recorder's file URL is an `Option<Url>`.

## Model

| member | source | states |
|---|---|---|
| `CommentList.FirstIndex` | AudioComments/AudioComments/Model/AudioDataSource.swift:18 | The result is the position of an entry with the id, and no earlier entry has that id. It is absent exactly when no entry carries the id. |
| `CommentList.Rename` | AudioComments/AudioComments/Model/AudioDataSource.swift:17-19 | The length is unchanged. The first entry with the new value's id becomes that value. Every other entry is unchanged. When no entry has the id, nothing changes. |
| `Comments.Empty` | AudioComments/AudioComments/Model/AudioComment.swift:16-18 | The placeholder comment has an empty title, no url and the given id. |
| `CommentList.RemoveOffsets` | AudioComments/AudioComments/Model/AudioDataSource.swift:44 | The entries not at an offset, in their original order. Its own contract says the result is no longer than the list and holds only entries of the list. `RemoveOffsetsSelects` and `SurvivorIndices` give its full meaning. |
| `CommentList.SurvivorIndices` | AudioComments/AudioComments/Model/AudioDataSource.swift:44 | The surviving positions are strictly increasing and below the length. None of them is an offset, and every in-range non-offset position is among them. |
| `CommentList.RemoveOffsetsSelects` | AudioComments/AudioComments/Model/AudioDataSource.swift:44 | After a removal, entry k is the original entry at the k-th surviving position. So the survivors are exactly the non-offset entries, in their original relative order. |
| `CommentList.RemoveOffsetsLength` | AudioComments/AudioComments/Model/AudioDataSource.swift:43-44 | When all offsets are in range, a removal shortens the list by exactly the number of offsets. |
| `CommentList.RemoveOffsetsRemovesExactly` | AudioComments/AudioComments/Model/AudioDataSource.swift:43-44 | With distinct ids, an original entry is still present after a removal if and only if its position was not an offset. |
| `CommentList.RemoveOffsetsKeepsDistinct` | AudioComments/AudioComments/Model/AudioDataSource.swift:43-44 | A removal keeps the ids pairwise distinct. |
| `CommentList.RenameKeepsIds` | AudioComments/AudioComments/Model/AudioDataSource.swift:17-19 | A rename changes no entry's id, so it keeps the ids pairwise distinct. |
| `CommentList.RenameUnique` | AudioComments/AudioComments/Model/AudioDataSource.swift:17-19 | With distinct ids, a rename overwrites exactly the one entry that carries the id and leaves every other index unchanged. |
| `CommentList.RenameTitleOnly` | AudioComments/AudioComments/Model/AudioDataSource.swift:17-19 | With distinct ids, when list entry i is the current comment and only its title is edited, the rename changes that entry's title and nothing else in the list. |
| `CommentList.RenameIdempotent` | AudioComments/AudioComments/Model/AudioDataSource.swift:17-19 | Renaming twice with the same value gives the same list as renaming once. |
| `CommentList.PrependFresh` | AudioComments/AudioComments/Model/AudioDataSource.swift:39-40 | Prepending a comment with a fresh id keeps the ids distinct. |
| `DataSource.AudioDataSource.constructor` | AudioComments/AudioComments/Model/AudioDataSource.swift:13-14 | The default store has an empty list. Its current comment is the placeholder: empty title, no url, fresh id. |
| `DataSource.AudioDataSource.WithSampleData` | AudioComments/AudioComments/Model/AudioDataSource.swift:24-32 | With sample data, the list holds exactly two comments titled "one" then "two", with distinct ids. Without it, the list is empty. In both cases the current comment is the placeholder. |
| `DataSource.AudioDataSource.FirstIndexOf` | AudioComments/AudioComments/Model/AudioDataSource.swift:18 | The front-to-back scan returns exactly the first-match position that `FirstIndex` specifies. |
| `DataSource.AudioDataSource.NewRecording` | AudioComments/AudioComments/Model/AudioDataSource.swift:35-41 | Without a url, the list is exactly unchanged. With a url, the list grows by one: the new comment, carrying that url, is at index 0, and the rest is the old list. The current comment is untouched and the ids stay distinct. |
| `DataSource.AudioDataSource.Delete` | AudioComments/AudioComments/Model/AudioDataSource.swift:43-46 | The new list is the old list without the entries at the offsets, and its length is the old length minus the number of offsets. The current comment is untouched and the ids stay distinct. |
| `DataSource.AudioDataSource.SetCurrent` | AudioComments/AudioComments/Model/AudioDataSource.swift:14-22 | The current comment becomes the value. With a different id, the list is unchanged. With the same id, the list becomes the rename of the old list. The ids stay distinct. |

## Left out

- The audio recorder and player (`AudioManager.swift`, `AudioPlayer.swift`) are not part of this model. They wrap the platform's audio session, recorder and player objects, a metering timer, delegate callbacks, permission prompts and floating-point time formatting.
- The SwiftUI views (`ContentView.swift`) are not part of this model. They hold layout and modal flags only; the selection and rename they perform are modelled by `SetCurrent`.
- The image filter editor and the video capture prototype are not part of this model. They are glue code over the platform's image and camera frameworks.
- UUID generation, the current date, ISO 8601 title formatting and file-system paths are not modelled. They appear as parameters.
- A fresh UUID is modelled by a precondition that the id is not already in the list. `NewRecording` does not require the id to differ from the current comment's id.
- Deleting the audio file of a removed comment is not modelled. The code leaves it as a to-do at `AudioDataSource.swift:45`.
- Change notification through `@Published` and `ObservableObject` is not modelled.
- Delete: positions outside the list are excluded by a precondition. The collection library traps on such an offset; it does not ignore it.
- WithSampleData: the sample comments are given no url. The struct as declared has no url field, and the initializer the callers use does not show a default value.
- Each read of the placeholder `AudioComment.empty` draws a new UUID. The model passes that UUID in as a constructor parameter.
