/**
 * The event handlers of the ContactViewApp screen (assignment 8): the Add
 * button's validation, the error flags, the sort buttons and the delete
 * dialog. The screen drives a `ContactViewModel`.
 */
module ContactScreen {
  import opened Text
  import opened Wrappers
  import opened ContactView

  /** Every contact inserted through the log has a non-blank name and a valid phone number. */
  ghost predicate InsertsValid(calls: seq<RepositoryCall>) {
    forall i :: 0 <= i < |calls| && calls[i].Insert? ==>
      !IsBlank(calls[i].contact.name) && IsValidPhoneNumber(calls[i].contact.phoneNumber)
  }

  class ContactScreenState {
    const viewModel: ContactViewModel
    var nameError: bool
    var phoneError: bool
    var showDeleteDialog: bool
    var contactToDelete: Option<Contact>

    constructor (vm: ContactViewModel)
      ensures viewModel == vm
      ensures !nameError && !phoneError && !showDeleteDialog && contactToDelete == None
    {
      viewModel := vm;
      nameError, phoneError, showDeleteDialog := false, false, false;
      contactToDelete := None;
    }

    /** Editing the name clears only the name error. */
    method OnNameChange(newName: string)
      modifies this`nameError, viewModel`name
      ensures viewModel.name == newName && !nameError
    {
      viewModel.OnNameChange(newName);
      nameError := false;
    }

    /** Editing the phone number clears only the phone error. */
    method OnPhoneNumberChange(newPhoneNumber: string)
      modifies this`phoneError, viewModel`phoneNumber
      ensures viewModel.phoneNumber == newPhoneNumber && !phoneError
    {
      viewModel.OnPhoneNumberChange(newPhoneNumber);
      phoneError := false;
    }

    /**
     * The Add button: set both error flags, and only when neither is set
     * insert the contact and clear the inputs.
     */
    method OnAdd()
      modifies this`nameError, this`phoneError
      modifies viewModel`name, viewModel`phoneNumber, viewModel`calls
      ensures nameError == IsBlank(old(viewModel.name))
      ensures phoneError == !DottedPhoneShape(old(viewModel.phoneNumber))
      ensures !nameError && !phoneError ==>
        && viewModel.calls == old(viewModel.calls)
             + [RepositoryCall.Insert(Contact(0, old(viewModel.name), old(viewModel.phoneNumber)))]
        && viewModel.name == "" && viewModel.phoneNumber == ""
      ensures nameError || phoneError ==>
        && viewModel.calls == old(viewModel.calls)
        && viewModel.name == old(viewModel.name) && viewModel.phoneNumber == old(viewModel.phoneNumber)
      ensures InsertsValid(old(viewModel.calls)) ==> InsertsValid(viewModel.calls)
    {
      nameError := IsBlank(viewModel.name);
      phoneError := !IsValidPhoneNumber(viewModel.phoneNumber);
      if !nameError && !phoneError {
        viewModel.Insert(Contact(0, viewModel.name, viewModel.phoneNumber));
        viewModel.ClearInputFields();
      }
    }

    method OnSortDesc()
      modifies viewModel`sortOrder
      ensures viewModel.sortOrder == DESC
    {
      viewModel.OnSortOrderChange(DESC);
    }

    method OnSortAsc()
      modifies viewModel`sortOrder
      ensures viewModel.sortOrder == ASC
    {
      viewModel.OnSortOrderChange(ASC);
    }

    method OnSearchQueryChange(newQuery: string)
      modifies viewModel`searchQuery
      ensures viewModel.searchQuery == newQuery
    {
      viewModel.OnSearchQueryChange(newQuery);
    }

    /** A row's delete icon. */
    method OnDeleteClick(contact: Contact)
      modifies this`contactToDelete, this`showDeleteDialog
      ensures contactToDelete == Some(contact) && showDeleteDialog
    {
      contactToDelete := Some(contact);
      showDeleteDialog := true;
    }

    /** The dialog is on screen. */
    predicate DeleteDialogShown()
      reads this
    {
      showDeleteDialog && contactToDelete.Some?
    }

    /** Delete in the dialog: delete the target (if any), hide the dialog, forget the target. */
    method OnConfirmDelete()
      modifies this`showDeleteDialog, this`contactToDelete, viewModel`calls
      ensures old(contactToDelete).Some? ==>
        viewModel.calls == old(viewModel.calls) + [RepositoryCall.Delete(old(contactToDelete).value)]
      ensures old(contactToDelete).None? ==> viewModel.calls == old(viewModel.calls)
      ensures !showDeleteDialog && contactToDelete == None
    {
      if contactToDelete.Some? {
        viewModel.Delete(contactToDelete.value);
      }
      showDeleteDialog := false;
      contactToDelete := None;
    }

    /** Cancel in the dialog: the same as Delete without deleting. */
    method OnCancelDelete()
      modifies this`showDeleteDialog, this`contactToDelete
      ensures !showDeleteDialog && contactToDelete == None
    {
      showDeleteDialog := false;
      contactToDelete := None;
    }

    /** Dismissing the dialog by tapping outside hides it and keeps the target. */
    method OnDismissRequest()
      modifies this`showDeleteDialog
      ensures !showDeleteDialog
    {
      showDeleteDialog := false;
    }
  }
}
