# Contact, notes, timer, grades, finance and movie screens in Dafny

This project models the state-handling core of a set of Android (Kotlin,
Jetpack Compose) coursework apps and proves properties of it:

- **ContactInfoEntry** (`contact_info_entry.dfy`): the email, phone and zip
  validators, written as their regular expressions over a small literal regex
  model (`regex.dfy`), proved equal to position-by-position descriptions; and
  the contact form, whose validity flags always agree with the validators and
  whose submit button writes the summary text only when every field is filled in
  and valid. A consequence proved here: the name error can never be shown,
  because a non-blank name is always flagged valid.
- **ContactViewApp view-model** (`contact_view_model.dfy`): the dotted phone
  check, the choice of repository stream from the search text and sort order, and
  the field setters. Repository calls are recorded in a call log.
- **ContactViewApp screen** (`contact_screen.dfy`): the Add button's
  validate-insert-clear flow (every contact it inserts has a non-blank name and a
  valid phone number), the sort buttons and the delete dialog.
- **StudyTimer** (`study_timer.dfy`): the countdown as a class with an
  invariant (time left is positive, and a stopped timer shows a full session), the
  one-second tick, the whole countdown loop, and the minutes/seconds display with
  Kotlin's truncating division.
- **StudentGradeManager view-model** (`student_grade_manager.dfy`): adding,
  removing (a filter that keeps order), the average grade and the sample data.
- **Notes screen** (`note_screen.dfy`): the create/edit form, update as
  delete-then-add, the set of starred notes, and delete confirmation.
- **Finance tracker categories** (`category_management.dfy`): the delete
  that is refused while a transaction in the current (filtered) transaction
  list uses the category, the add/edit dispatch,
  the dialog's defaults and save gate, and the palette split.
- **Contact list** (`contact_list.dfy`): single selection, the header text and
  the avatar initials, including when `first()` would fail.
- **Movie details** (`movie_details.dfy`): the Rotten Tomatoes rating lookup,
  the poster condition, the field fallbacks, the load outcome and which of
  spinner, error and content is shown.

Shared modules: `wrappers.dfy` (`Option`) and `text.dfy` (Kotlin's
`isBlank`, using the JVM whitespace characters, and ASCII case-insensitive
`contains`).

The phone validator accepts each of the two separators independently, so
"123-456/7890" is valid although the field's help text lists only matching
separators; the model follows the regular expression.

## Model

| member | source | states |
|---|---|---|
| ContactInfoEntry.ValidateEmail | assignments/assignment4/ContactInfoEntry/app/src/main/java/com/example/contactinfoentry/MainActivity.kt:283-287 | accepts exactly blank text or text with one '@', a non-empty local part over [A-Za-z0-9+_.-], a domain over [A-Za-z0-9.-] with a last '.', at least one character before that dot and at least two ASCII letters after it |
| ContactInfoEntry.ValidatePhone | assignments/assignment4/ContactInfoEntry/app/src/main/java/com/example/contactinfoentry/MainActivity.kt:289-293 | accepts exactly blank text or 12 characters: digits at 0-2, 4-6, 8-11 and '-' or '/' at 3 and 7, chosen independently |
| ContactInfoEntry.ValidateZipCode | assignments/assignment4/ContactInfoEntry/app/src/main/java/com/example/contactinfoentry/MainActivity.kt:295-299 | accepts exactly blank text or five digits, with `\d` taken as ASCII `[0-9]` |
| ContactInfoEntry.EmailPatternMeaning | assignments/assignment4/ContactInfoEntry/app/src/main/java/com/example/contactinfoentry/MainActivity.kt:285 | the email regular expression matches the whole text iff the text has the one-'@' shape described above |
| ContactInfoEntry.DomainPatternMeaning | assignments/assignment4/ContactInfoEntry/app/src/main/java/com/example/contactinfoentry/MainActivity.kt:285 | the part of the email regular expression after '@' matches iff the domain shape holds, splitting at the last '.' |
| ContactInfoEntry.NoAtSignInDomain | assignments/assignment4/ContactInfoEntry/app/src/main/java/com/example/contactinfoentry/MainActivity.kt:285 | a text of the domain shape has no '@', so the email has only one |
| ContactInfoEntry.PhonePatternMeaning | assignments/assignment4/ContactInfoEntry/app/src/main/java/com/example/contactinfoentry/MainActivity.kt:291 | the phone regular expression matches iff the 12-character digit/separator layout holds |
| ContactInfoEntry.ZipPatternMeaning | assignments/assignment4/ContactInfoEntry/app/src/main/java/com/example/contactinfoentry/MainActivity.kt:297 | the zip regular expression matches iff the text is five digits, with `\d` taken as ASCII `[0-9]` |
| ContactInfoEntry.LocalClassMeaning | assignments/assignment4/ContactInfoEntry/app/src/main/java/com/example/contactinfoentry/MainActivity.kt:285 | a character is in [A-Za-z0-9+_.-] iff it is an ASCII letter, a digit, '+', '_', '.' or '-' |
| ContactInfoEntry.DomainClassMeaning | assignments/assignment4/ContactInfoEntry/app/src/main/java/com/example/contactinfoentry/MainActivity.kt:285 | a character is in [A-Za-z0-9.-] iff it is an ASCII letter, a digit, '.' or '-' |
| ContactInfoEntry.SeparatorClassMeaning | assignments/assignment4/ContactInfoEntry/app/src/main/java/com/example/contactinfoentry/MainActivity.kt:291 | a character is in [-/] iff it is '-' or '/' |
| ContactInfoEntry.ContactForm.constructor | assignments/assignment4/ContactInfoEntry/app/src/main/java/com/example/contactinfoentry/MainActivity.kt:53-65 | all fields and the submitted text start empty, all flags true, and the flags agree with the validators |
| ContactInfoEntry.ContactForm.OnNameChange | assignments/assignment4/ContactInfoEntry/app/src/main/java/com/example/contactinfoentry/MainActivity.kt:100-102 | stores the name and sets only the name flag, to "not blank" |
| ContactInfoEntry.ContactForm.OnEmailChange | assignments/assignment4/ContactInfoEntry/app/src/main/java/com/example/contactinfoentry/MainActivity.kt:110-112 | stores the email and sets only the email flag, to the validator's result |
| ContactInfoEntry.ContactForm.OnPhoneChange | assignments/assignment4/ContactInfoEntry/app/src/main/java/com/example/contactinfoentry/MainActivity.kt:118-121 | stores the phone and sets only the phone flag, to the validator's result |
| ContactInfoEntry.ContactForm.OnZipCodeChange | assignments/assignment4/ContactInfoEntry/app/src/main/java/com/example/contactinfoentry/MainActivity.kt:127-130 | stores the zip code and sets only the zip flag, to the validator's result |
| ContactInfoEntry.ContactForm.Submit | assignments/assignment4/ContactInfoEntry/app/src/main/java/com/example/contactinfoentry/MainActivity.kt:141-149 | writes "Name: n\nEmail: e\nPhone: p \nZip: z" when all four fields are non-blank and all flags true, otherwise leaves the submitted text unchanged |
| ContactInfoEntry.CanSubmitMeaning | assignments/assignment4/ContactInfoEntry/app/src/main/java/com/example/contactinfoentry/MainActivity.kt:143-145 | in a consistent form, submit is possible iff the name is non-blank and email, phone and zip each have their full shape (blank ones are excluded) |
| ContactInfoEntry.ErrorsMeaning | assignments/assignment4/ContactInfoEntry/app/src/main/java/com/example/contactinfoentry/MainActivity.kt:201-261 | in a consistent form, a field shows an error iff it is non-blank and fails its format; the name never shows one |
| ContactInfoEntry.SummaryNotBlank | assignments/assignment4/ContactInfoEntry/app/src/main/java/com/example/contactinfoentry/MainActivity.kt:165 | the submitted text is never blank, so a successful submit always shows the card |
| ContactView.IsValidPhoneNumber | Apps/ContactViewApp/app/src/main/java/com/example/contactviewapp/ContactViewModel.kt:93-95 | accepts exactly three digits, '.', three digits, '.', four digits; blank text is rejected |
| ContactView.DottedPhonePatternMeaning | Apps/ContactViewApp/app/src/main/java/com/example/contactviewapp/ContactViewModel.kt:94 | the dotted phone regular expression matches iff that 12-character layout holds |
| ContactView.DottedPhoneNotBlank | Apps/ContactViewApp/app/src/main/java/com/example/contactviewapp/ContactViewModel.kt:93-95 | a dotted phone number is never blank |
| ContactView.SelectQuery | Apps/ContactViewApp/app/src/main/java/com/example/contactviewapp/ContactViewModel.kt:33-53 | a non-blank search selects findContacts with the pattern "%" + query + "%"; a blank one selects the ascending or descending list according to the sort order |
| ContactView.SearchIgnoresSortOrder | Apps/ContactViewApp/app/src/main/java/com/example/contactviewapp/ContactViewModel.kt:42-49 | while the search text is non-blank, both sort orders select the same stream |
| ContactView.ContactViewModel.constructor | Apps/ContactViewApp/app/src/main/java/com/example/contactviewapp/ContactViewModel.kt:18-28 | starts with empty search, ASC order, empty name and phone, no repository calls |
| ContactView.ContactViewModel.OnSearchQueryChange | Apps/ContactViewApp/app/src/main/java/com/example/contactviewapp/ContactViewModel.kt:64-66 | sets only the search text |
| ContactView.ContactViewModel.OnSortOrderChange | Apps/ContactViewApp/app/src/main/java/com/example/contactviewapp/ContactViewModel.kt:68-70 | sets only the sort order |
| ContactView.ContactViewModel.Insert | Apps/ContactViewApp/app/src/main/java/com/example/contactviewapp/ContactViewModel.kt:72-74 | forwards the contact unchanged as one repository insert |
| ContactView.ContactViewModel.Delete | Apps/ContactViewApp/app/src/main/java/com/example/contactviewapp/ContactViewModel.kt:76-78 | forwards the contact unchanged as one repository delete |
| ContactView.ContactViewModel.OnNameChange | Apps/ContactViewApp/app/src/main/java/com/example/contactviewapp/ContactViewModel.kt:80-82 | sets only the name |
| ContactView.ContactViewModel.OnPhoneNumberChange | Apps/ContactViewApp/app/src/main/java/com/example/contactviewapp/ContactViewModel.kt:84-86 | sets only the phone number |
| ContactView.ContactViewModel.ClearInputFields | Apps/ContactViewApp/app/src/main/java/com/example/contactviewapp/ContactViewModel.kt:88-91 | empties name and phone number and leaves search text and sort order alone |
| ContactScreen.ContactScreenState.constructor | Apps/assignment8/ContactViewApp/app/src/main/java/com/example/contactviewapp/ContactScreen.kt:28-31 | no errors, no dialog, no contact to delete |
| ContactScreen.ContactScreenState.OnNameChange | Apps/assignment8/ContactViewApp/app/src/main/java/com/example/contactviewapp/ContactScreen.kt:41-44 | stores the name and clears only the name error |
| ContactScreen.ContactScreenState.OnPhoneNumberChange | Apps/assignment8/ContactViewApp/app/src/main/java/com/example/contactviewapp/ContactScreen.kt:67-70 | stores the phone number and clears only the phone error |
| ContactScreen.ContactScreenState.OnAdd | Apps/assignment8/ContactViewApp/app/src/main/java/com/example/contactviewapp/ContactScreen.kt:97-105 | sets the name error to "name blank" and the phone error to "phone not dotted"; with neither, inserts Contact(0, name, phone) and clears both inputs, otherwise inserts nothing; every inserted contact stays valid |
| ContactScreen.ContactScreenState.OnSortDesc | Apps/assignment8/ContactViewApp/app/src/main/java/com/example/contactviewapp/ContactScreen.kt:113-115 | sets the sort order to DESC |
| ContactScreen.ContactScreenState.OnSortAsc | Apps/assignment8/ContactViewApp/app/src/main/java/com/example/contactviewapp/ContactScreen.kt:122-124 | sets the sort order to ASC |
| ContactScreen.ContactScreenState.OnSearchQueryChange | Apps/assignment8/ContactViewApp/app/src/main/java/com/example/contactviewapp/ContactScreen.kt:136 | forwards the search text |
| ContactScreen.ContactScreenState.OnDeleteClick | Apps/assignment8/ContactViewApp/app/src/main/java/com/example/contactviewapp/ContactScreen.kt:159-162 | remembers the contact and opens the dialog |
| ContactScreen.ContactScreenState.OnConfirmDelete | Apps/assignment8/ContactViewApp/app/src/main/java/com/example/contactviewapp/ContactScreen.kt:177-181 | deletes the remembered contact if there is one, then closes the dialog and forgets the contact |
| ContactScreen.ContactScreenState.OnCancelDelete | Apps/assignment8/ContactViewApp/app/src/main/java/com/example/contactviewapp/ContactScreen.kt:188-191 | closes the dialog and forgets the contact, deleting nothing |
| ContactScreen.ContactScreenState.OnDismissRequest | Apps/assignment8/ContactViewApp/app/src/main/java/com/example/contactviewapp/ContactScreen.kt:172 | closes the dialog only |
| StudyTimer.Display | Apps/StudyTimer/app/src/main/java/com/example/studytimer/MainActivity.kt:141-142 | minutes*60 + seconds equals the time; for a non-negative time the seconds lie in 0..59 and the minutes are non-negative (Kotlin truncating division and remainder) |
| StudyTimer.StudyTimer.constructor | Apps/StudyTimer/app/src/main/java/com/example/studytimer/MainActivity.kt:36-39 | not running, 2700 seconds, 45-minute sessions, no completed sessions; the timer invariant holds |
| StudyTimer.StudyTimer.Toggle | Apps/StudyTimer/app/src/main/java/com/example/studytimer/MainActivity.kt:69-76 | stopping resets the time to a full session; starting keeps the time; the invariant is kept |
| StudyTimer.StudyTimer.ChangeSessionLength | Apps/StudyTimer/app/src/main/java/com/example/studytimer/MainActivity.kt:87-91 | always sets the length; resets the time only when stopped; the invariant is kept |
| StudyTimer.StudyTimer.Tick | Apps/StudyTimer/app/src/main/java/com/example/studytimer/MainActivity.kt:117-126 | a running tick takes one second off; the tick that reaches zero stops the timer, adds exactly one completed session and resets to a full session |
| StudyTimer.StudyTimer.RunSession | Apps/StudyTimer/app/src/main/java/com/example/studytimer/MainActivity.kt:117-126 | the loop run to its end ticks exactly the time that was left and completes exactly one session (none when stopped) |
| StudyTimer.ShortenWhileRunning | Apps/StudyTimer/app/src/main/java/com/example/studytimer/MainActivity.kt:87-91 | shortening to 5 minutes while running leaves 2700 seconds against a 300-second session, so "time left at most a full session" is not an invariant |
| StudentGrades.Without | Apps/StudentGradeManager/app/src/main/java/com/example/studentgrademanager/MainViewModel.kt:45 | removes every entry equal to the student and nothing else: the multiset loses exactly that student's copies |
| StudentGrades.WithoutAppend | Apps/StudentGradeManager/app/src/main/java/com/example/studentgrademanager/MainViewModel.kt:45 | the removal distributes over concatenation, so the other entries keep their order |
| StudentGrades.WithoutAbsent | Apps/StudentGradeManager/app/src/main/java/com/example/studentgrademanager/MainViewModel.kt:45 | removing an absent student changes nothing |
| StudentGrades.WithoutIdempotent | Apps/StudentGradeManager/app/src/main/java/com/example/studentgrademanager/MainViewModel.kt:45 | removing twice is removing once |
| StudentGrades.SumBounds | Apps/StudentGradeManager/app/src/main/java/com/example/studentgrademanager/MainViewModel.kt:52 | with every grade in [lo, hi], the sum lies between n*lo and n*hi |
| StudentGrades.Gpa | Apps/StudentGradeManager/app/src/main/java/com/example/studentgrademanager/MainViewModel.kt:48-54 | 0 for an empty list; otherwise the value times the number of students is the sum of the grades |
| StudentGrades.GpaBounds | Apps/StudentGradeManager/app/src/main/java/com/example/studentgrademanager/MainViewModel.kt:48-54 | the average of a non-empty list lies between the lowest and highest possible grade |
| StudentGrades.MainViewModel.constructor | Apps/StudentGradeManager/app/src/main/java/com/example/studentgrademanager/MainViewModel.kt:22-32 | no students, not loading, empty inputs |
| StudentGrades.MainViewModel.AddStudent | Apps/StudentGradeManager/app/src/main/java/com/example/studentgrademanager/MainViewModel.kt:34-40 | an unparsable grade changes nothing; a parsed one appends exactly Student(name, grade) after the earlier entries; the input fields are untouched |
| StudentGrades.MainViewModel.RemoveStudent | Apps/StudentGradeManager/app/src/main/java/com/example/studentgrademanager/MainViewModel.kt:42-46 | the list becomes the filtered list |
| StudentGrades.MainViewModel.CalculateGpa | Apps/StudentGradeManager/app/src/main/java/com/example/studentgrademanager/MainViewModel.kt:48-54 | 0 for no students, otherwise the mean grade |
| StudentGrades.MainViewModel.LoadSampleData | Apps/StudentGradeManager/app/src/main/java/com/example/studentgrademanager/MainViewModel.kt:56-69 | the list becomes exactly Alice Johnson 95, Bob Smith 87, Carol Davis 92, and loading ends |
| StudentGrades.MainViewModel.UpdateNewStudentName | Apps/StudentGradeManager/app/src/main/java/com/example/studentgrademanager/MainViewModel.kt:71-75 | sets only the name input |
| StudentGrades.MainViewModel.UpdateNewStudentGrade | Apps/StudentGradeManager/app/src/main/java/com/example/studentgrademanager/MainViewModel.kt:77-81 | sets only the grade input |
| NoteScreen.Toggled | assignments/assignment10/NotesApp/app/src/main/java/com/example/notesapp/NoteScreen.kt:379-383 | the id's membership flips and no other id changes |
| NoteScreen.ToggleTwice | assignments/assignment10/NotesApp/app/src/main/java/com/example/notesapp/NoteScreen.kt:378-384 | pressing the star twice restores the set |
| NoteScreen.NoteScreenState.constructor | assignments/assignment10/NotesApp/app/src/main/java/com/example/notesapp/NoteScreen.kt:34-46 | empty untouched form, nothing edited, no dialog, no starred notes |
| NoteScreen.NoteScreenState.OnFabClick | assignments/assignment10/NotesApp/app/src/main/java/com/example/notesapp/NoteScreen.kt:69-76 | resets the form: nothing edited, empty inputs, untouched |
| NoteScreen.NoteScreenState.OnCancelEdit | assignments/assignment10/NotesApp/app/src/main/java/com/example/notesapp/NoteScreen.kt:225-231 | resets the form in the same way |
| NoteScreen.NoteScreenState.OnTitleChange | assignments/assignment10/NotesApp/app/src/main/java/com/example/notesapp/NoteScreen.kt:138-146 | stores the title and marks it touched; the title error shows iff the new title is blank |
| NoteScreen.NoteScreenState.OnContentChange | assignments/assignment10/NotesApp/app/src/main/java/com/example/notesapp/NoteScreen.kt:164-173 | stores the content and marks it touched; the content error shows iff the new content is blank |
| NoteScreen.NoteScreenState.OnSubmit | assignments/assignment10/NotesApp/app/src/main/java/com/example/notesapp/NoteScreen.kt:194-216 | blank title or content: no call, both fields marked touched; otherwise addNote, or deleteNote of the edited note then addNote, and the form is reset; the stars are untouched |
| NoteScreen.NoteScreenState.OnNoteClick | assignments/assignment10/NotesApp/app/src/main/java/com/example/notesapp/NoteScreen.kt:321-328 | loads the note's title and content for editing, untouched and without errors |
| NoteScreen.NoteScreenState.OnToggleImportant | assignments/assignment10/NotesApp/app/src/main/java/com/example/notesapp/NoteScreen.kt:378-384 | flips the note's star |
| NoteScreen.NoteScreenState.OnDeleteClick | assignments/assignment10/NotesApp/app/src/main/java/com/example/notesapp/NoteScreen.kt:400-402 | opens the dialog for the note |
| NoteScreen.NoteScreenState.OnConfirmDelete | assignments/assignment10/NotesApp/app/src/main/java/com/example/notesapp/NoteScreen.kt:429-443 | deletes the note, unstars its id, resets the form only when the edited note has the same id, closes the dialog |
| NoteScreen.NoteScreenState.OnDismissDelete | assignments/assignment10/NotesApp/app/src/main/java/com/example/notesapp/NoteScreen.kt:452 | closes the dialog without deleting |
| CategoryManagement.HasTransactions | Apps/FinanceTracker/app/src/main/java/com/example/financetracker/screens/CategoryManagementScreen.kt:148 | true iff some transaction has the category's id |
| CategoryManagement.HasTransactionsAppend | Apps/FinanceTracker/app/src/main/java/com/example/financetracker/screens/CategoryManagementScreen.kt:148 | the check over two joined lists is the check over either |
| CategoryManagement.PaletteRows | Apps/FinanceTracker/app/src/main/java/com/example/financetracker/screens/CategoryManagementScreen.kt:315-337 | take(4) and drop(4) together give back the whole palette in order; the first row has min(4, n) colours |
| CategoryManagement.PaletteRowsOfAvailableColors | Apps/FinanceTracker/app/src/main/java/com/example/financetracker/screens/CategoryManagementScreen.kt:260-269 | the eight-colour palette splits into two rows of four, and the default colour is in the first |
| CategoryManagement.CategoryDialogState.constructor | Apps/FinanceTracker/app/src/main/java/com/example/financetracker/screens/CategoryManagementScreen.kt:256-258 | a new category starts with "", EXPENSE and "#6200EE"; an edit starts from the category's own name, type and colour |
| CategoryManagement.CategoryDialogState.OnNameChange | Apps/FinanceTracker/app/src/main/java/com/example/financetracker/screens/CategoryManagementScreen.kt:280 | stores the name |
| CategoryManagement.CategoryDialogState.OnSelectType | Apps/FinanceTracker/app/src/main/java/com/example/financetracker/screens/CategoryManagementScreen.kt:295-301 | selects the type |
| CategoryManagement.CategoryDialogState.OnSelectColor | Apps/FinanceTracker/app/src/main/java/com/example/financetracker/screens/CategoryManagementScreen.kt:329 | selects the colour |
| CategoryManagement.CategoryDialogState.Save | Apps/FinanceTracker/app/src/main/java/com/example/financetracker/screens/CategoryManagementScreen.kt:359-364 | hands over name, type and colour iff the name is not blank |
| CategoryManagement.CategoryScreenState.constructor | Apps/FinanceTracker/app/src/main/java/com/example/financetracker/screens/CategoryManagementScreen.kt:42-46 | no dialog open, nothing to edit or delete |
| CategoryManagement.CategoryScreenState.OnAddClick | Apps/FinanceTracker/app/src/main/java/com/example/financetracker/screens/CategoryManagementScreen.kt:58-61 | opens the dialog for a new category |
| CategoryManagement.CategoryScreenState.OnEditClick | Apps/FinanceTracker/app/src/main/java/com/example/financetracker/screens/CategoryManagementScreen.kt:96-99 | opens the dialog for that category |
| CategoryManagement.CategoryScreenState.OnDeleteClick | Apps/FinanceTracker/app/src/main/java/com/example/financetracker/screens/CategoryManagementScreen.kt:100-103 | remembers the category and shows the confirmation |
| CategoryManagement.CategoryScreenState.OnEditDialogDismiss | Apps/FinanceTracker/app/src/main/java/com/example/financetracker/screens/CategoryManagementScreen.kt:114-117 | closes the dialog and forgets the edited category |
| CategoryManagement.CategoryScreenState.OnSave | Apps/FinanceTracker/app/src/main/java/com/example/financetracker/screens/CategoryManagementScreen.kt:118-132 | while editing, updates the category keeping its id with the new name, type and colour; otherwise inserts a new one; closes the dialog either way |
| CategoryManagement.CategoryScreenState.OnConfirmDelete | Apps/FinanceTracker/app/src/main/java/com/example/financetracker/screens/CategoryManagementScreen.kt:144-158 | with a transaction in the category: nothing deleted, confirmation closed, error shown; otherwise exactly one deleteCategory and the category forgotten |
| CategoryManagement.CategoryScreenState.OnDeleteDialogDismiss | Apps/FinanceTracker/app/src/main/java/com/example/financetracker/screens/CategoryManagementScreen.kt:168 | hides the confirmation and keeps the category |
| CategoryManagement.CategoryScreenState.OnDeleteErrorOk | Apps/FinanceTracker/app/src/main/java/com/example/financetracker/screens/CategoryManagementScreen.kt:184-187 | closes the error and forgets the category |
| CategoryManagement.CategoryScreenState.OnDeleteErrorDismiss | Apps/FinanceTracker/app/src/main/java/com/example/financetracker/screens/CategoryManagementScreen.kt:178 | closes the error only |
| ContactList.Split | Apps/ContactListTest/app/src/main/java/com/example/contactlist/MainActivity.kt:223 | split(" ") gives at least one piece and no piece contains a space |
| ContactList.JoinSplit | Apps/ContactListTest/app/src/main/java/com/example/contactlist/MainActivity.kt:223 | joining the pieces with single spaces gives back the name |
| ContactList.SplitPieces | Apps/ContactListTest/app/src/main/java/com/example/contactlist/MainActivity.kt:223 | every piece is non-empty iff the name is non-empty with no leading, trailing or doubled space |
| ContactList.FirstChars | Apps/ContactListTest/app/src/main/java/com/example/contactlist/MainActivity.kt:223 | one character per piece, the piece's first, in order |
| ContactList.Initials | Apps/ContactListTest/app/src/main/java/com/example/contactlist/MainActivity.kt:223 | defined iff the name is well spaced; then one character per piece, each the piece's first |
| ContactList.ContactListState.constructor | Apps/ContactListTest/app/src/main/java/com/example/contactlist/MainActivity.kt:87 | nothing selected |
| ContactList.ContactListState.Header | Apps/ContactListTest/app/src/main/java/com/example/contactlist/MainActivity.kt:103-108 | reads "No contact has been selected" exactly when nothing is selected, otherwise "Selected: " and the contact's data-class text |
| ContactList.ContactListState.OnContactClick | Apps/ContactListTest/app/src/main/java/com/example/contactlist/MainActivity.kt:131-134 | the clicked contact becomes the one and only selected contact |
| ContactList.ContactListState.ClearSelection | Apps/ContactListTest/app/src/main/java/com/example/contactlist/MainActivity.kt:155-164 | nothing is selected afterwards, the button disappears and the header says so |
| MovieDetails.FindRottenTomatoes | Apps/assignment9/MovieSearchingApp/app/src/main/java/com/example/moviesearchingapp/MovieDetails.kt:194-196 | the position of the first rating whose source contains "Rotten Tomatoes" ignoring case, or none iff no rating does |
| MovieDetails.RottenTomatoesValue | Apps/assignment9/MovieSearchingApp/app/src/main/java/com/example/moviesearchingapp/MovieDetails.kt:194-197 | the first matching rating's value; "N/A" when the list is missing, nothing matches or that value is missing |
| MovieDetails.LaterRatingsIgnored | Apps/assignment9/MovieSearchingApp/app/src/main/java/com/example/moviesearchingapp/MovieDetails.kt:194-197 | ratings appended after a match do not change the value shown |
| MovieDetails.ShowsPoster | Apps/assignment9/MovieSearchingApp/app/src/main/java/com/example/moviesearchingapp/MovieDetails.kt:156 | the poster is shown iff it is present, non-empty and not "N/A" |
| MovieDetails.DetailRows | Apps/assignment9/MovieSearchingApp/app/src/main/java/com/example/moviesearchingapp/MovieDetails.kt:182-203 | seven rows labelled Year, Rated, Director, Actors, Rotten Tomatoes, IMDb Rating, Box Office in that order; each shows its field's value, or "N/A" when the field is missing, so a row reads "N/A" iff its field is missing or is "N/A" itself |
| MovieDetails.TitleText | Apps/assignment9/MovieSearchingApp/app/src/main/java/com/example/moviesearchingapp/MovieDetails.kt:172 | the title, or "Unknown Title" when missing |
| MovieDetails.PlotText | Apps/assignment9/MovieSearchingApp/app/src/main/java/com/example/moviesearchingapp/MovieDetails.kt:217 | the plot, or "No plot available" when missing |
| MovieDetails.MovieDetailsState.constructor | Apps/assignment9/MovieSearchingApp/app/src/main/java/com/example/moviesearchingapp/MovieDetails.kt:62-64 | loading, no details, no error |
| MovieDetails.MovieDetailsState.Shown | Apps/assignment9/MovieSearchingApp/app/src/main/java/com/example/moviesearchingapp/MovieDetails.kt:96-130 | spinner iff loading; else the error iff there is one; else the details iff present; else nothing |
| MovieDetails.MovieDetailsState.Load | Apps/assignment9/MovieSearchingApp/app/src/main/java/com/example/moviesearchingapp/MovieDetails.kt:66-79 | details found: stored; none: "Movie details not found"; failure: its message or "An error occurred"; loading always ends; from the start state exactly one of details and error is set and something is shown |

## Left out

- Compose layout, styling, animations, snackbars, navigation and activity wiring: presentation only.
- Room, Retrofit and the repositories: repository and view-model calls are recorded in call logs (`calls` fields) instead of being executed; query results are not modelled.
- Coroutines and flows: `viewModelScope.launch`, `delay`, `LaunchedEffect`, `flatMapLatest` and `scope.launch` are each one sequential step; cancellation and interleaving are not modelled.
- StudentGrades.MainViewModel.AddStudent: takes the outcome of `toFloatOrNull()` as an optional real, because Kotlin's float parsing is not modelled; grades are reals, so the NaN and infinite grades that `toFloatOrNull()` accepts ("NaN", "Infinity") cannot be added in the model.
- StudentGrades.Gpa: the mean is an exact real; Float/Double rounding, the NaN or infinite average that a NaN or infinite grade produces, and the "%.2f" formatting are not modelled.
- StudentGrades.MainViewModel.RemoveStudent: the Kotlin parameter has type `Any`; here it is a `Student`, since no other value can equal a list entry. Student equality compares grades as reals, not with `Float.compare` as the data class does: the model has no NaN grade (which Kotlin treats as equal to itself) and treats 0.0 and -0.0 as one grade (Kotlin keeps them apart).
- StudyTimer.StudyTimer.ChangeSessionLength: requires one of the four offered lengths, the only values its buttons pass.
- StudyTimer: the progress percentage of the timer display (a Float division) and the "%02d" formatting are not modelled; Kotlin's 32-bit `Int` cannot overflow at these values.
- NoteScreen: the date is an opaque string parameter (the `SimpleDateFormat` of the current time is not modelled); Note.kt and NoteViewModel.kt are not part of this model, so `Note` has only the fields the screen reads.
- CategoryManagement: Category.kt, Transaction.kt and FinanceViewModel.kt are not part of this model; `filteredTransactions.first()` is the `transactions` parameter, and a transaction has only the field the check reads.
- CategoryManagement.CategoryScreenState.OnConfirmDelete: the list it checks is the view-model's current filtered list, which starts empty and, while a category filter is set, holds only that category's transactions; so a category used by some transaction is still deleted when that transaction is not in the current list. The model promises only the outcome for the list it is given.
- ContactInfoEntry.ValidatePhone: `\d` is taken as ASCII `[0-9]`; on Android the regex engine is ICU, whose `\d` may also match other Unicode decimal digits (for example Arabic-Indic digits), which the model then rejects.
- ContactInfoEntry.ValidateZipCode: the same ASCII reading of `\d` as for the phone validator.
- ContactList.Initials: Kotlin's `first()` returns one UTF-16 code unit, so a piece starting with a character outside the Basic Multilingual Plane (an emoji, say) gives a lone high surrogate; the model's `char` is a whole Unicode scalar value and gives the whole character.
- ContactList.FirstChars: the same UTF-16 difference as for the initials.
- Text.ContainsIgnoringCase: folds ASCII letters only; Unicode case folding of `ignoreCase` is not modelled.
- Text.IsBlank: uses the JVM whitespace characters; no other Unicode handling.
- ContactList: the `rememberSaveable` persistence across rotation is not modelled.
- The InteractiveButtonGrid app's click handler is an empty stub and is not modelled.
