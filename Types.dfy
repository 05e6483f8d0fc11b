/** The record shapes of the note store (src/ts/types.ts). */
module Types {

  /** A JavaScript value that may be `null` or `undefined`. */
  datatype Option<T> = None | Some(value: T)

  /** A note as the store keeps it. `notebookId` is `string | null`,
      `notebook` (the notebook's display name) is `string | undefined`. */
  datatype Note = Note(
    notebookId: Option<string>,
    notebook: Option<string>,
    favorite: bool,
    createdDate: string,
    text: string,
    id: string,
    title: string)

  /** `Omit<Note, 'title' | 'notebook'>`: a note before its derived fields are added. */
  datatype NoteWithoutTitleAndNotebook = NoteWithoutTitleAndNotebook(
    notebookId: Option<string>,
    favorite: bool,
    createdDate: string,
    text: string,
    id: string)

  datatype Notebook = Notebook(id: string, name: string)

  /** The object literal `{ title, notebook, ...note }`: the fields of `note`
      together with the given `title` and `notebook`. */
  function WithTitleAndNotebook(note: NoteWithoutTitleAndNotebook, title: string, notebook: Option<string>): (r: Note)
    ensures r.title == title && r.notebook == notebook
    ensures r.notebookId == note.notebookId && r.favorite == note.favorite
    ensures r.createdDate == note.createdDate && r.text == note.text && r.id == note.id
  {
    Note(note.notebookId, notebook, note.favorite, note.createdDate, note.text, note.id, title)
  }

  /** The projection from `Note` to `Omit<Note, 'title' | 'notebook'>`. */
  function WithoutTitleAndNotebook(note: Note): (r: NoteWithoutTitleAndNotebook)
    ensures WithTitleAndNotebook(r, note.title, note.notebook) == note
  {
    NoteWithoutTitleAndNotebook(note.notebookId, note.favorite, note.createdDate, note.text, note.id)
  }

  /** Adding the two derived fields and omitting them again gives back the record. */
  lemma OmitAfterExtend(note: NoteWithoutTitleAndNotebook, title: string, notebook: Option<string>)
    ensures WithoutTitleAndNotebook(WithTitleAndNotebook(note, title, notebook)) == note
  {
  }
}
