/**
 * The state held by the notes screen: the create/edit form, the note being
 * edited, the note awaiting delete confirmation and the set of ids starred
 * as important. View-model calls are recorded in order in `calls`.
 */
module NoteScreen {
  import opened Wrappers
  import opened Text

  /** A stored note; the date is the already formatted timestamp string. */
  datatype Note = Note(id: int, title: string, content: string, date: string)

  /** The view-model operations the screen calls. */
  datatype NoteCall = AddNote(title: string, content: string, date: string) | DeleteNote(note: Note)

  /** The star button: `importantNotes - id` when starred, `importantNotes + id` otherwise. */
  function Toggled(s: set<int>, id: int): (r: set<int>)
    ensures id in r <==> id !in s
    ensures forall other :: other != id ==> (other in r <==> other in s)
  {
    if id in s then s - {id} else s + {id}
  }

  /** Pressing the star twice gives back the set it started from. */
  lemma ToggleTwice(s: set<int>, id: int)
    ensures Toggled(Toggled(s, id), id) == s
  {
    assert forall x :: x in Toggled(Toggled(s, id), id) <==> x in s;
  }

  class NoteScreenState {
    var titleInput: string
    var contentInput: string
    var titleTouched: bool
    var contentTouched: bool
    var editingNote: Option<Note>
    var showDeleteDialog: Option<Note>
    var importantNotes: set<int>
    var calls: seq<NoteCall>

    /** An empty form for a new note, not touched, editing nothing. */
    predicate FormReset()
      reads this
    {
      editingNote == None && titleInput == "" && contentInput == ""
      && !titleTouched && !contentTouched
    }

    constructor ()
      ensures FormReset() && showDeleteDialog == None && importantNotes == {} && calls == []
    {
      titleInput, contentInput := "", "";
      titleTouched, contentTouched := false, false;
      editingNote, showDeleteDialog := None, None;
      importantNotes, calls := {}, [];
    }

    /** The supporting error under the title field. */
    predicate TitleShowsError()
      reads this
    {
      titleTouched && IsBlank(titleInput)
    }

    /** The supporting error under the content field. */
    predicate ContentShowsError()
      reads this
    {
      contentTouched && IsBlank(contentInput)
    }

    /** The submit button is enabled, and a submit saves, exactly when both fields are non-blank. */
    predicate CanSubmit()
      reads this
    {
      !IsBlank(titleInput) && !IsBlank(contentInput)
    }

    /** The common form reset of the add button and of Cancel Edit. */
    method ResetForm()
      modifies this`editingNote, this`titleInput, this`contentInput, this`titleTouched, this`contentTouched
      ensures FormReset()
    {
      editingNote := None;
      titleInput, contentInput := "", "";
      titleTouched, contentTouched := false, false;
    }

    /** The floating add button starts a new note. */
    method OnFabClick()
      modifies this`editingNote, this`titleInput, this`contentInput, this`titleTouched, this`contentTouched
      ensures FormReset()
    {
      ResetForm();
    }

    /** Cancel Edit abandons the edit. */
    method OnCancelEdit()
      modifies this`editingNote, this`titleInput, this`contentInput, this`titleTouched, this`contentTouched
      ensures FormReset()
    {
      ResetForm();
    }

    /** Typing in the title field replaces it and marks it touched. */
    method OnTitleChange(text: string)
      modifies this`titleInput, this`titleTouched
      ensures titleInput == text && titleTouched
      ensures TitleShowsError() <==> IsBlank(text)
    {
      titleInput, titleTouched := text, true;
    }

    /** Typing in the content field replaces it and marks it touched. */
    method OnContentChange(text: string)
      modifies this`contentInput, this`contentTouched
      ensures contentInput == text && contentTouched
      ensures ContentShowsError() <==> IsBlank(text)
    {
      contentInput, contentTouched := text, true;
    }

    /**
     * The Add/Update button. Blank input only marks both fields touched. Otherwise a new note
     * is added, or, while editing, the edited note is deleted and re-added with the new text;
     * either way the form is reset. `date` is the formatted current time.
     */
    method OnSubmit(date: string)
      modifies this`editingNote, this`titleInput, this`contentInput, this`titleTouched,
        this`contentTouched, this`calls
      ensures !old(CanSubmit()) ==>
        calls == old(calls) && titleTouched && contentTouched
        && titleInput == old(titleInput) && contentInput == old(contentInput)
        && editingNote == old(editingNote)
      ensures old(CanSubmit()) && old(editingNote).None? ==>
        calls == old(calls) + [AddNote(old(titleInput), old(contentInput), date)] && FormReset()
      ensures old(CanSubmit()) && old(editingNote).Some? ==>
        calls == old(calls) + [DeleteNote(old(editingNote).value), AddNote(old(titleInput), old(contentInput), date)]
        && FormReset()
    {
      if !IsBlank(titleInput) && !IsBlank(contentInput) {
        if editingNote == None {
          calls := calls + [AddNote(titleInput, contentInput, date)];
        } else {
          calls := calls + [DeleteNote(editingNote.value)];
          calls := calls + [AddNote(titleInput, contentInput, date)];
          editingNote := None;
        }
        titleInput, contentInput := "", "";
        titleTouched, contentTouched := false, false;
      } else {
        titleTouched, contentTouched := true, true;
      }
    }

    /** Clicking a note card loads it into the form for editing. */
    method OnNoteClick(note: Note)
      modifies this`editingNote, this`titleInput, this`contentInput, this`titleTouched, this`contentTouched
      ensures editingNote == Some(note) && titleInput == note.title && contentInput == note.content
      ensures !titleTouched && !contentTouched && !TitleShowsError() && !ContentShowsError()
    {
      editingNote := Some(note);
      titleInput, contentInput := note.title, note.content;
      titleTouched, contentTouched := false, false;
    }

    /** Whether a note is shown with a filled star. */
    predicate IsImportant(note: Note)
      reads this
    {
      note.id in importantNotes
    }

    /** The star button on a note card. */
    method OnToggleImportant(note: Note)
      modifies this`importantNotes
      ensures importantNotes == Toggled(old(importantNotes), note.id)
      ensures IsImportant(note) <==> !old(IsImportant(note))
    {
      if note.id in importantNotes {
        importantNotes := importantNotes - {note.id};
      } else {
        importantNotes := importantNotes + {note.id};
      }
    }

    /** The delete icon on a note card opens the confirmation dialog for it. */
    method OnDeleteClick(note: Note)
      modifies this`showDeleteDialog
      ensures showDeleteDialog == Some(note)
    {
      showDeleteDialog := Some(note);
    }

    /**
     * Delete in the confirmation dialog (shown only while a note awaits deletion): deletes the
     * note, resets the form only when the note being edited has the same id, unstars the id
     * and closes the dialog.
     */
    method OnConfirmDelete()
      requires showDeleteDialog.Some?
      modifies this`editingNote, this`titleInput, this`contentInput, this`titleTouched,
        this`contentTouched, this`calls, this`importantNotes, this`showDeleteDialog
      ensures calls == old(calls) + [DeleteNote(old(showDeleteDialog).value)]
      ensures importantNotes == old(importantNotes) - {old(showDeleteDialog).value.id}
      ensures old(editingNote).Some? && old(editingNote).value.id == old(showDeleteDialog).value.id ==>
        FormReset()
      ensures !(old(editingNote).Some? && old(editingNote).value.id == old(showDeleteDialog).value.id) ==>
        editingNote == old(editingNote) && titleInput == old(titleInput) && contentInput == old(contentInput)
        && titleTouched == old(titleTouched) && contentTouched == old(contentTouched)
      ensures showDeleteDialog == None
    {
      var note := showDeleteDialog.value;
      calls := calls + [DeleteNote(note)];
      if editingNote.Some? && editingNote.value.id == note.id {
        ResetForm();
      }
      importantNotes := importantNotes - {note.id};
      showDeleteDialog := None;
    }

    /** Cancel, or a tap outside the dialog, closes it without deleting. */
    method OnDismissDelete()
      modifies this`showDeleteDialog
      ensures showDeleteDialog == None
    {
      showDeleteDialog := None;
    }
  }
}
