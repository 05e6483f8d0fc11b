/** The in-memory note store (src/ts/model.ts): the derivation helpers, the
    functions that say what each operation does to the note list, the laws
    those operations obey, and the mutable `state` record. */
module Model {
  import opened Types
  import opened ArrayOps

  // ---------------------------------------------------------------------------
  // Titles: `md.split('\n')[0].substring(2)`
  // ---------------------------------------------------------------------------

  /** `md.split('\n')[0]`: the text before the first line feed, or all of `md`. */
  function FirstLine(md: string): (line: string)
    ensures line <= md
    ensures '\n' !in line
    ensures |line| == |md| || md[|line|] == '\n'
  {
    if md == [] || md[0] == '\n' then []
    else [md[0]] + FirstLine(md[1..])
  }

  /** The first line is determined by the three facts FirstLine promises. */
  lemma FirstLineUnique(md: string, line: string)
    requires line <= md && '\n' !in line
    requires |line| == |md| || md[|line|] == '\n'
    ensures FirstLine(md) == line
  {
  }

  /** `s.substring(start)` with `s` read as a sequence of characters, so
      `start` counts characters where JavaScript counts UTF-16 code units;
      a start past the end gives "". */
  function Substring(s: string, start: nat): (r: string)
    ensures |r| == if start <= |s| then |s| - start else 0
    ensures forall i :: 0 <= i < |r| ==> r[i] == s[start + i]
  {
    if start <= |s| then s[start..] else ""
  }

  /** `getTitleOfNote`: the first line of the note without its first two
      characters (the heading marker, as in "# Title"). */
  function TitleOfNote(md: string): (title: string)
    ensures '\n' !in title
    ensures title == [] <==> |md| <= 2 || '\n' in md[..3]
    ensures title != [] ==>
      && '\n' !in md[..2]
      && 2 + |title| <= |md|
      && md[2..2 + |title|] == title
      && (2 + |title| == |md| || md[2 + |title|] == '\n')
  {
    var line := FirstLine(md);
    assert |line| >= 3 ==> md[..3] == line[..3];
    assert |line| < 3 && |md| >= 3 ==> md[|line|] == md[..3][|line|];
    assert |line| >= 2 ==> md[..2] == line[..2];
    Substring(line, 2)
  }

  /** A note whose first line is a two-character marker and a heading is
      titled by that heading, whatever follows the line feed. */
  lemma TitleOfHeading(marker: string, heading: string, body: string)
    requires |marker| == 2 && '\n' !in marker && '\n' !in heading
    ensures TitleOfNote(marker + heading) == heading
    ensures TitleOfNote(marker + heading + "\n" + body) == heading
  {
    var line := marker + heading;
    FirstLineUnique(line, line);
    var md := line + "\n" + body;
    assert md[|line|] == '\n';
    FirstLineUnique(md, line);
    assert line[2..] == heading;
  }

  lemma TitleOfHello()
    ensures TitleOfNote("# Hello\nbody") == "Hello"
  {
  }

  // ---------------------------------------------------------------------------
  // Notebook names: `notebooks.find((notebook) => notebook.id === id)?.name`
  // ---------------------------------------------------------------------------

  /** `getNotebookFromId`: the name of the first notebook whose id is `id`,
      or `undefined`. A `null` id equals no notebook's id. */
  function NotebookFromId(id: Option<string>, notebooks: seq<Notebook>): (name: Option<string>)
    ensures name.None? <==> forall i :: 0 <= i < |notebooks| ==> Some(notebooks[i].id) != id
    ensures name.Some? ==>
      exists i :: 0 <= i < |notebooks| && Some(notebooks[i].id) == id && notebooks[i].name == name.value
                  && forall j :: 0 <= j < i ==> Some(notebooks[j].id) != id
  {
    if notebooks == [] then None
    else if Some(notebooks[0].id) == id then Some(notebooks[0].name)
    else
      var rest := NotebookFromId(id, notebooks[1..]);
      assert forall i :: 1 <= i < |notebooks| ==> notebooks[i] == notebooks[1..][i - 1];
      rest
  }

  /** The converse: the first notebook with a matching id supplies the name. */
  lemma NotebookFromIdFirstMatch(id: string, notebooks: seq<Notebook>, i: nat)
    requires i < |notebooks| && notebooks[i].id == id
    requires forall j :: 0 <= j < i ==> notebooks[j].id != id
    ensures NotebookFromId(Some(id), notebooks) == Some(notebooks[i].name)
  {
  }

  /** A note without a notebook (`notebookId: null`) gets no notebook name. */
  lemma NotebookFromNullId(notebooks: seq<Notebook>)
    ensures NotebookFromId(None, notebooks) == None
  {
  }

  // ---------------------------------------------------------------------------
  // What each operation does to the note list
  // ---------------------------------------------------------------------------

  /** The `props` argument of `loadNotes`. */
  datatype LoadProps = LoadProps(notes: seq<NoteWithoutTitleAndNotebook>, notebooks: seq<Notebook>)

  /** The `map` in `loadNotes`: every note keeps its fields and gains the title
      of its text and the name of its notebook. */
  function LoadedNotes(notes: seq<NoteWithoutTitleAndNotebook>, notebooks: seq<Notebook>): (r: seq<Note>)
    ensures |r| == |notes|
    ensures forall i :: 0 <= i < |notes| ==>
      && WithoutTitleAndNotebook(r[i]) == notes[i]
      && r[i].title == TitleOfNote(notes[i].text)
      && r[i].notebook == NotebookFromId(notes[i].notebookId, notebooks)
  {
    seq(|notes|, i requires 0 <= i < |notes| =>
      WithTitleAndNotebook(notes[i], TitleOfNote(notes[i].text), NotebookFromId(notes[i].notebookId, notebooks)))
  }

  /** The notebook name `addNewNoteToState` gives every new note. */
  const NewNoteNotebook: string := "Notes"

  /** The note `addNewNoteToState` appends: untitled, in the "Notes" notebook. */
  function NewNote(note: NoteWithoutTitleAndNotebook): (r: Note)
    ensures WithoutTitleAndNotebook(r) == note
    ensures r.title == "" && r.notebook == Some(NewNoteNotebook)
  {
    WithTitleAndNotebook(note, "", Some(NewNoteNotebook))
  }

  /** The `map` in `saveNotes`: matching notes get the new text and keep every
      other field, the title included; other notes are unchanged. */
  function SavedNotes(notes: seq<Note>, val: string, id: string): (r: seq<Note>)
    ensures |r| == |notes|
    ensures forall i :: 0 <= i < |notes| ==>
      && r[i].text == (if notes[i].id == id then val else notes[i].text)
      && r[i].(text := notes[i].text) == notes[i]
  {
    seq(|notes|, i requires 0 <= i < |notes| =>
      if notes[i].id == id then notes[i].(text := val) else notes[i])
  }

  /** The `map` in `starNote`: matching notes have `favorite` negated and keep
      every other field; other notes are unchanged. */
  function StarredNotes(notes: seq<Note>, id: string): (r: seq<Note>)
    ensures |r| == |notes|
    ensures forall i :: 0 <= i < |notes| ==>
      && r[i].favorite == (notes[i].favorite != (notes[i].id == id))
      && r[i].(favorite := notes[i].favorite) == notes[i]
  {
    seq(|notes|, i requires 0 <= i < |notes| =>
      if notes[i].id == id then notes[i].(favorite := !notes[i].favorite) else notes[i])
  }

  /** The callback `(note) => note.id === id`. */
  function IdIs(id: string): Note -> bool
  {
    (note: Note) => note.id == id
  }

  /** Its negation, the callback `deleteNote` keeps a note by. */
  function IdIsNot(id: string): Note -> bool
  {
    (note: Note) => note.id != id
  }

  /** The callback `(note) => note.favorite`. */
  predicate IsFavorite(note: Note)
  {
    note.favorite
  }

  /** The notes whose id is `id`, in order: what `deleteNote` moves to the
      trash and what `showNotesFromNotebook` returns. */
  function NotesWithId(notes: seq<Note>, id: string): (r: seq<Note>)
    ensures forall i :: 0 <= i < |r| ==> r[i].id == id
  {
    Filter(notes, IdIs(id))
  }

  /** The notes whose id is not `id`, in order: what `deleteNote` keeps. */
  function NotesWithoutId(notes: seq<Note>, id: string): (r: seq<Note>)
    ensures forall i :: 0 <= i < |r| ==> r[i].id != id
  {
    Filter(notes, IdIsNot(id))
  }

  // ---------------------------------------------------------------------------
  // Laws of the operations
  // ---------------------------------------------------------------------------

  /** The scenario of a default dataset holding one uncategorised note. */
  lemma LoadHelloNote()
    ensures LoadedNotes([NoteWithoutTitleAndNotebook(None, false, "", "# Hello\nbody", "n1")], [])
         == [Note(None, None, false, "", "# Hello\nbody", "n1", "Hello")]
  {
    TitleOfHello();
  }

  /** Saving text under an id no note has changes nothing. */
  lemma SaveUnknownIdIsNoOp(notes: seq<Note>, val: string, id: string)
    requires forall i :: 0 <= i < |notes| ==> notes[i].id != id
    ensures SavedNotes(notes, val, id) == notes
  {
  }

  /** Saving does not recompute titles, nor touch ids, flags or notebooks. */
  lemma SaveKeepsTitles(notes: seq<Note>, val: string, id: string)
    ensures forall i :: 0 <= i < |notes| ==>
      && SavedNotes(notes, val, id)[i].title == notes[i].title
      && SavedNotes(notes, val, id)[i].id == notes[i].id
  {
  }

  /** Of two saves under one id, the second decides the text. */
  lemma SaveLastWriteWins(notes: seq<Note>, first: string, second: string, id: string)
    ensures SavedNotes(SavedNotes(notes, first, id), second, id) == SavedNotes(notes, second, id)
  {
  }

  /** Starring twice restores every note. */
  lemma StarTwiceIsIdentity(notes: seq<Note>, id: string)
    ensures StarredNotes(StarredNotes(notes, id), id) == notes
  {
  }

  /** Starring keeps the ids, so the same notes match the next call. */
  lemma StarKeepsIds(notes: seq<Note>, id: string)
    ensures forall i :: 0 <= i < |notes| ==> StarredNotes(notes, id)[i].id == notes[i].id
  {
  }

  /** Deleting splits the notes into those kept and those trashed: none is
      lost or duplicated, and no kept note has the deleted id. */
  lemma DeleteConservesNotes(notes: seq<Note>, id: string)
    ensures |NotesWithoutId(notes, id)| + |NotesWithId(notes, id)| == |notes|
    ensures multiset(NotesWithoutId(notes, id)) + multiset(NotesWithId(notes, id)) == multiset(notes)
    ensures forall i :: 0 <= i < |NotesWithoutId(notes, id)| ==> NotesWithoutId(notes, id)[i].id != id
  {
    FilterPartition(notes, IdIsNot(id), IdIs(id));
  }

  /** One step of the `filter` in `deleteNote`: the next note goes to exactly
      one of the two lists. */
  lemma DeleteStep(all: seq<Note>, i: nat, id: string)
    requires i < |all|
    ensures NotesWithoutId(all[..i + 1], id)
         == NotesWithoutId(all[..i], id) + (if all[i].id != id then [all[i]] else [])
    ensures NotesWithId(all[..i + 1], id)
         == NotesWithId(all[..i], id) + (if all[i].id == id then [all[i]] else [])
  {
    assert all[..i + 1] == all[..i] + [all[i]];
    FilterSnoc(all[..i], all[i], IdIs(id));
    FilterSnoc(all[..i], all[i], IdIsNot(id));
  }

  /** After deleting an id, no note with that id is left to show or delete. */
  lemma DeleteRemovesId(notes: seq<Note>, id: string)
    ensures NotesWithId(NotesWithoutId(notes, id), id) == []
  {
    var kept := NotesWithoutId(notes, id);
    FilterKeepsNone(kept, IdIs(id));
  }

  /** Deleting an id no note has changes nothing. */
  lemma DeleteUnknownIdIsNoOp(notes: seq<Note>, id: string)
    requires forall i :: 0 <= i < |notes| ==> notes[i].id != id
    ensures NotesWithoutId(notes, id) == notes
    ensures NotesWithId(notes, id) == []
  {
    FilterKeepsAll(notes, IdIsNot(id));
    FilterKeepsNone(notes, IdIs(id));
  }

  /** `showNotesFromNotebook` compares a note's own id with its argument, so a
      note filed in notebook "nb1" is not shown for "nb1", but is shown for
      its own id. */
  lemma ShowNotesFromNotebookMatchesNoteId()
    ensures var n := Note(Some("nb1"), Some("Work"), false, "", "# A", "n1", "A");
      NotesWithId([n], "nb1") == [] && NotesWithId([n], "n1") == [n]
  {
  }

  // ---------------------------------------------------------------------------
  // The store
  // ---------------------------------------------------------------------------

  /** The module-level `state` record. */
  class State {
    var notes: seq<Note>
    var notebooks: seq<Notebook>
    var trashedNotes: seq<Note>

    /** The initial record: all three lists empty. */
    constructor ()
      ensures notes == [] && notebooks == [] && trashedNotes == []
    {
      notes, notebooks, trashedNotes := [], [], [];
    }

    /** `loadNotes(props?)`: take notes and notebooks from `props`, or from the
        bundled defaults when there are none. The trash is left alone. */
    method LoadNotes(props: Option<LoadProps>, defaults: LoadProps)
      modifies this
      ensures var source := if props.Some? then props.value else defaults;
        && notebooks == source.notebooks
        && notes == LoadedNotes(source.notes, source.notebooks)
      ensures trashedNotes == old(trashedNotes)
    {
      if props.None? {
        notes := LoadedNotes(defaults.notes, defaults.notebooks);
        notebooks := defaults.notebooks;
      } else {
        notebooks := props.value.notebooks;
        notes := LoadedNotes(props.value.notes, props.value.notebooks);
      }
    }

    /** `addNewNoteToState(note)`: push an untitled note in "Notes". */
    method AddNewNoteToState(note: NoteWithoutTitleAndNotebook)
      modifies this
      ensures notes == old(notes) + [NewNote(note)]
      ensures |notes| == |old(notes)| + 1
      ensures notebooks == old(notebooks) && trashedNotes == old(trashedNotes)
    {
      notes := notes + [NewNote(note)];
    }

    /** `saveNotes(val, id)`: overwrite the text of every note with this id. */
    method SaveNotes(val: string, id: string)
      modifies this
      ensures notes == SavedNotes(old(notes), val, id)
      ensures notebooks == old(notebooks) && trashedNotes == old(trashedNotes)
    {
      notes := SavedNotes(notes, val, id);
    }

    /** `starNote(id)`: toggle `favorite` on every note with this id. */
    method StarNote(id: string)
      modifies this
      ensures notes == StarredNotes(old(notes), id)
      ensures notebooks == old(notebooks) && trashedNotes == old(trashedNotes)
    {
      notes := StarredNotes(notes, id);
    }

    /** `deleteNote(id)`: the `filter` callback pushes every note with this id
        onto the trash, in order, and the notes without it remain. */
    method DeleteNote(id: string)
      modifies this
      ensures notes == NotesWithoutId(old(notes), id)
      ensures trashedNotes == old(trashedNotes) + NotesWithId(old(notes), id)
      ensures |notes| + |trashedNotes| == |old(notes)| + |old(trashedNotes)|
      ensures notebooks == old(notebooks)
    {
      var all := notes;
      var kept: seq<Note> := [];
      var i := 0;
      while i < |all|
        invariant 0 <= i <= |all|
        invariant notebooks == old(notebooks)
        invariant kept == NotesWithoutId(all[..i], id)
        invariant trashedNotes == old(trashedNotes) + NotesWithId(all[..i], id)
      {
        var note := all[i];
        DeleteStep(all, i, id);
        if note.id == id {
          trashedNotes := trashedNotes + [note];
        } else {
          kept := kept + [note];
        }
        i := i + 1;
      }
      assert all[..i] == all;
      notes := kept;
      DeleteConservesNotes(all, id);
    }

    /** `showFavoriteNotes()`: the favourite notes, in order. */
    function ShowFavoriteNotes(): (r: seq<Note>)
      reads this
      ensures forall i :: 0 <= i < |r| ==> r[i].favorite
      ensures forall x :: multiset(r)[x] == if x.favorite then multiset(notes)[x] else 0
    {
      FilterCounts(notes, IsFavorite);
      Filter(notes, IsFavorite)
    }

    /** `showNotesFromNotebook(id)`: the notes whose own id is `id`, in order. */
    function ShowNotesFromNotebook(id: string): (r: seq<Note>)
      reads this
      ensures forall i :: 0 <= i < |r| ==> r[i].id == id
      ensures forall x :: multiset(r)[x] == if x.id == id then multiset(notes)[x] else 0
    {
      FilterCounts(notes, IdIs(id));
      NotesWithId(notes, id)
    }
  }

  /** Calling `starNote` twice with one id leaves the whole store as it was. */
  method StarNoteTwice(state: State, id: string)
    modifies state
    ensures state.notes == old(state.notes)
    ensures state.notebooks == old(state.notebooks) && state.trashedNotes == old(state.trashedNotes)
  {
    state.StarNote(id);
    state.StarNote(id);
    StarTwiceIsIdentity(old(state.notes), id);
  }
}
