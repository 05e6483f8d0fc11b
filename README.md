# Note store of a client-side note-taking application

This project is a Dafny model of the in-memory note store in `src/ts/model.ts`. The store is a module-level record `state` with three lists:

- `notes`: the live notes;
- `notebooks`: the notebooks;
- `trashedNotes`: the notes that `deleteNote` moved out.

Exported functions fill or change the record:

- `loadNotes` fills it from given data or from bundled defaults;
- `addNewNoteToState` appends a note;
- `saveNotes` overwrites a note's text;
- `starNote` toggles a note's favourite flag;
- `deleteNote` moves notes to the trash.

Two queries return filtered lists: `showFavoriteNotes` and `showNotesFromNotebook`. Each note's `title` and `notebook` name are derived by two helpers, `getTitleOfNote` and `getNotebookFromId`.

Layout:

- `Types.dfy` (module `Types`): the records of `src/ts/types.ts` as datatypes. `null`/`undefined` become `Option`. The module also has the object spread that adds `title` and `notebook`, and the projection that omits them again.
- `ArrayOps.dfy` (module `ArrayOps`): `Array.prototype.filter` as `Filter`, with its laws. These are order preservation through concatenation, exact element counts, and partition by a callback and its negation.
- `Model.dfy` (module `Model`) has three parts:
  - the two helpers, and one function per operation saying what that operation does to the note list;
  - the lemmas relating those functions;
  - the class `State`. Its fields are the three lists. Each exported mutator is a method with `modifies this`. The two queries are functions that read `this`.

`deleteNote` pushes into `state.trashedNotes` from inside its `filter` callback. `State.DeleteNote` models this as a loop over the notes. It sends each note to exactly one of the two lists and is proved equal to the two filters.

The model follows `model.ts` as written, including these quirks:

- `saveNotes` replaces only `text`. Whatever title the note has is kept, not recomputed (`SaveKeepsTitles`): the one derived at load, or `""` for a note added by `addNewNoteToState`, which therefore stays untitled in the store whatever text is saved.
- `deleteNote` removes notes from `notes` and appends them to `trashedNotes`. There is no `inTrash` flag and no recovery.
- `showNotesFromNotebook(id)` compares the note's own `id` with `id`, not its `notebookId` (`ShowNotesFromNotebookMatchesNoteId`).
- No operation assumes ids are unique. Every note whose id matches is affected.
- `addNewNoteToState` gives a new note the title `""` and the notebook name `"Notes"`. It takes no notebook or category argument.

## Model

| member | source | states |
|---|---|---|
| Types.WithTitleAndNotebook | src/ts/model.ts:41 | the object `{ title, notebook, ...note }` has the given `title` and `notebook` and every other field of `note` |
| Types.WithoutTitleAndNotebook | src/ts/types.ts:11 | the `Omit` type of `Note` without `title` and `notebook` keeps exactly the fields that, with the note's own `title` and `notebook` added back, rebuild the note |
| Types.OmitAfterExtend | src/ts/types.ts:1-11 | adding `title` and `notebook` to a `NoteWithoutTitleAndNotebook` and omitting them again gives back the same record |
| ArrayOps.Filter | src/ts/model.ts:103-105 | `filter` returns at most as many elements as its input, and every returned element passes the callback |
| ArrayOps.FilterCounts | src/ts/model.ts:103-105 | each value passing the callback occurs in the result exactly as often as in the input; no other value occurs |
| ArrayOps.FilterConcat | src/ts/model.ts:103-105 | filtering a concatenation is the concatenation of the filtered parts, so the input order is kept |
| ArrayOps.FilterSnoc | src/ts/model.ts:92-99 | visiting one more element appends it to the result exactly when the callback accepts it |
| ArrayOps.FilterKeepsAll | src/ts/model.ts:92-99 | when every element passes, the result equals the input |
| ArrayOps.FilterKeepsNone | src/ts/model.ts:92-99 | when no element passes, the result is empty |
| ArrayOps.FilterPartition | src/ts/model.ts:92-99 | the elements kept by a callback and by its negation together have the input's multiset and the input's length |
| Model.FirstLine | src/ts/model.ts:18 | `md.split('\n')[0]` is a prefix of `md` without line feeds that ends at the end of `md` or just before a line feed |
| Model.FirstLineUnique | src/ts/model.ts:18 | those three facts determine the first line uniquely |
| Model.Substring | src/ts/model.ts:20 | `substring(start)` is the part of the text from position `start` on, and is empty when `start` is past the end (positions counted in characters) |
| Model.TitleOfNote | src/ts/model.ts:17-22 | the title has no line feed; it is empty exactly when the first line has at most two characters; otherwise it is the first line from its third character up to the first line feed or the end |
| Model.TitleOfHeading | src/ts/model.ts:17-22 | a text made of a two-character marker and a heading without line feeds, optionally followed by a line feed and any body, has that heading as its title |
| Model.TitleOfHello | src/ts/model.ts:17-22 | the title of `"# Hello\nbody"` is `"Hello"` |
| Model.NotebookFromId | src/ts/model.ts:24-30 | the result is undefined exactly when no notebook has the id; otherwise it is the name of a notebook with that id, and no earlier notebook has it |
| Model.NotebookFromIdFirstMatch | src/ts/model.ts:24-30 | conversely, the first notebook whose id matches supplies the name |
| Model.NotebookFromNullId | src/ts/model.ts:24-30 | a `null` notebook id gives an undefined notebook name whatever the notebooks |
| Model.LoadedNotes | src/ts/model.ts:38-42 | the `map` in `loadNotes` keeps the length and order; each note keeps all its fields and gains the title of its text and the name of its notebook in the given notebooks |
| Model.LoadHelloNote | src/ts/model.ts:49-53 | loading one uncategorised note with text `"# Hello\nbody"` and no notebooks yields that note titled `"Hello"` with no notebook name |
| Model.NewNote | src/ts/model.ts:59-63 | the note `addNewNoteToState` builds has the given note's fields, the title `""` and the notebook name `"Notes"` |
| Model.SavedNotes | src/ts/model.ts:68-75 | the `map` in `saveNotes` keeps the length and order; a note with the id gets the new text and keeps every other field; every other note keeps its text and fields |
| Model.SaveUnknownIdIsNoOp | src/ts/model.ts:67-77 | saving under an id that no note has leaves the notes equal |
| Model.SaveKeepsTitles | src/ts/model.ts:67-77 | saving changes no note's title or id (the title is not recomputed) |
| Model.SaveLastWriteWins | src/ts/model.ts:67-77 | two saves under one id equal the second save alone |
| Model.StarredNotes | src/ts/model.ts:80-87 | the `map` in `starNote` keeps the length and order; `favorite` is negated exactly on the notes with the id; every other field of every note is kept |
| Model.StarTwiceIsIdentity | src/ts/model.ts:79-89 | toggling twice with the same id restores every note |
| Model.StarKeepsIds | src/ts/model.ts:79-89 | toggling changes no note's id |
| Model.NotesWithId | src/ts/model.ts:107-109 | the filter with the callback `(note) => note.id === id` (model.ts:108, the `IdIs` definition): every note returned has the given id |
| Model.NotesWithoutId | src/ts/model.ts:92-100 | the filter whose callback keeps a note when `note.id !== id` (model.ts:93-98, the `IdIsNot` definition): no note kept by `deleteNote` has the given id |
| Model.DeleteStep | src/ts/model.ts:92-99 | each note the callback visits is appended to exactly one of the kept list and the trashed list |
| Model.DeleteConservesNotes | src/ts/model.ts:91-101 | the kept and trashed notes together have the original multiset and length, and no kept note has the id |
| Model.DeleteRemovesId | src/ts/model.ts:91-101 | after deleting an id, no remaining note has that id |
| Model.DeleteUnknownIdIsNoOp | src/ts/model.ts:91-101 | deleting an id that no note has keeps every note and trashes nothing |
| Model.ShowNotesFromNotebookMatchesNoteId | src/ts/model.ts:107-109 | a note filed in notebook "nb1" is not returned for "nb1" but is returned for its own id |
| Model.State.constructor | src/ts/model.ts:11-15 | the store starts with all three lists empty |
| Model.State.LoadNotes | src/ts/model.ts:32-56 | `notebooks` becomes the given notebooks, or the defaults without props; `notes` becomes the loaded form of the matching notes against those notebooks; `trashedNotes` is unchanged |
| Model.State.AddNewNoteToState | src/ts/model.ts:58-65 | `notes` grows by exactly one, with the new note appended at the end; the old notes, `notebooks` and `trashedNotes` are unchanged |
| Model.State.SaveNotes | src/ts/model.ts:67-77 | `notes` becomes the saved form of the old notes; `notebooks` and `trashedNotes` are unchanged |
| Model.State.StarNote | src/ts/model.ts:79-89 | `notes` becomes the toggled form of the old notes; `notebooks` and `trashedNotes` are unchanged |
| Model.State.DeleteNote | src/ts/model.ts:91-101 | `notes` becomes the old notes without the id, in order; the notes with the id are appended to `trashedNotes` in order; the total count is conserved; `notebooks` is unchanged |
| Model.State.ShowFavoriteNotes | src/ts/model.ts:103-105 | the filter with the callback `(note) => note.favorite` (model.ts:104, the `IsFavorite` definition): every returned note is a favourite, and each favourite occurs as often as in `notes` (order: `FilterConcat`) |
| Model.State.ShowNotesFromNotebook | src/ts/model.ts:107-109 | every returned note has the given id, and each such note occurs as often as in `notes` (order: `FilterConcat`) |
| Model.StarNoteTwice | src/ts/model.ts:79-89 | calling `starNote` twice with one id leaves the whole store as it was |

## Left out

- Model.TitleOfNote: note text is modelled as a sequence of Unicode characters, not of UTF-16 code units. `substring(2)` in JavaScript drops two code units. So the titles differ when one of the first two code units belongs to a character outside the Basic Multilingual Plane. For example, `"😀 Shopping"` is titled `" Shopping"` by the source and `"Shopping"` by the model. A cut that leaves a lone surrogate half cannot be represented at all.
- Model.TitleOfHeading: for the same reason, its "two-character marker" means two Unicode characters. For a marker containing a non-BMP character, the source's title is not the heading.
- Model.Substring: counts positions in Unicode characters, where JavaScript's `substring` counts UTF-16 code units.
- The bundled JSON defaults (`src/ts/model.ts:1-2`): their contents are not modelled. `State.LoadNotes` takes them as the parameter `defaults`.
- Aliasing of the arrays is not modelled. `loadNotes` stores the caller's `notebooks` array itself, and `state` is exported, so other code could hold a reference to `state.notes` or `state.trashedNotes` and see the in-place `push`es. The model holds the lists as values. Notes are never mutated in place (every change builds a new object), so the value view loses nothing else.
- The object spread `{ title, notebook, ...note }` lets fields of `note` override `title` and `notebook`. The model follows the declared type, which omits those fields, so a runtime object carrying them is not modelled.
- The comparison `notebook.id === id` with a `null` id is modelled as "matches no notebook": notebook ids are strings.
- `src/ts/controller.ts` and `src/ts/views/*.ts` are not part of this model. They hold fetching, DOM construction, event listeners, markup strings and calls to a markdown library. `getTitleFromNote` in the controller repeats the title helper.
- Persistence, id generation and timestamps are not done by `model.ts`. `createdDate` is an opaque string.
