/**
 * The category management screen of the finance tracker: the add/edit dialog
 * and the delete flow that refuses to delete a category while a transaction
 * in the current (possibly filtered) transaction list uses it. Repository calls are recorded in order in `calls`.
 */
module CategoryManagement {
  import opened Wrappers
  import opened Text

  datatype TransactionType = EXPENSE | INCOME

  /** A stored category; the colour is its hex string such as "#6200EE". */
  datatype Category = Category(id: int, name: string, kind: TransactionType, color: string)

  /** A transaction, reduced to the one field the delete check reads. */
  datatype Transaction = Transaction(id: int, categoryId: int)

  /** The repository operations the screen calls; an inserted category gets its id from storage. */
  datatype CategoryCall =
    | InsertCategory(name: string, kind: TransactionType, color: string)
    | UpdateCategory(category: Category)
    | DeleteCategory(category: Category)

  /** What the dialog hands to its save callback. */
  datatype SaveRequest = SaveRequest(name: string, kind: TransactionType, color: string)

  /** `transactions.any { it.categoryId == categoryId }` */
  function HasTransactions(transactions: seq<Transaction>, categoryId: int): (r: bool)
    ensures r <==> exists i :: 0 <= i < |transactions| && transactions[i].categoryId == categoryId
  {
    if transactions == [] then false
    else
      transactions[0].categoryId == categoryId
      || (HasTransactionsTail(transactions, categoryId); HasTransactions(transactions[1..], categoryId))
  }

  /** An index into the tail is an index into the whole list, shifted by one. */
  lemma HasTransactionsTail(transactions: seq<Transaction>, categoryId: int)
    requires transactions != []
    ensures (exists i :: 0 <= i < |transactions| && transactions[i].categoryId == categoryId)
      <==> (transactions[0].categoryId == categoryId
            || exists i :: 0 <= i < |transactions[1..]| && transactions[1..][i].categoryId == categoryId)
  {
    if i :| 0 <= i < |transactions| && transactions[i].categoryId == categoryId && i > 0 {
      assert transactions[1..][i - 1].categoryId == categoryId;
    }
  }

  /** The colour chosen for a new category. */
  const DefaultColor: string := "#6200EE"

  /** The dialog's palette, duplicates included. */
  const AvailableColors: seq<string> :=
    ["#6200EE", "#03DAC5", "#3700B3", "#018786", "#000000", "#6200EE", "#03DAC5", "#018786"]

  /** The two palette rows, `take(4)` and `drop(4)`, which clamp at the list's length. */
  function PaletteRows(colors: seq<string>): (rows: (seq<string>, seq<string>))
    ensures rows.0 + rows.1 == colors
    ensures |rows.0| == if |colors| < 4 then |colors| else 4
  {
    if |colors| <= 4 then (colors, []) else (colors[..4], colors[4..])
  }

  /** Both rows of the real palette have four swatches, and the default colour is in the first. */
  lemma PaletteRowsOfAvailableColors()
    ensures |PaletteRows(AvailableColors).0| == 4 && |PaletteRows(AvailableColors).1| == 4
    ensures DefaultColor in PaletteRows(AvailableColors).0
  {
    assert PaletteRows(AvailableColors).0[0] == DefaultColor;
  }

  /** The add/edit dialog's own state. */
  class CategoryDialogState {
    var name: string
    var selectedType: TransactionType
    var selectedColor: string

    /** Opened for `category`, or for a new category when there is none. */
    constructor (category: Option<Category>)
      ensures category.None? ==> name == "" && selectedType == EXPENSE && selectedColor == DefaultColor
      ensures category.Some? ==>
        name == category.value.name && selectedType == category.value.kind
        && selectedColor == category.value.color
    {
      match category {
        case None =>
          name, selectedType, selectedColor := "", EXPENSE, DefaultColor;
        case Some(c) =>
          name, selectedType, selectedColor := c.name, c.kind, c.color;
      }
    }

    method OnNameChange(text: string)
      modifies this`name
      ensures name == text
    {
      name := text;
    }

    /** The Expense and Income chips. */
    method OnSelectType(kind: TransactionType)
      modifies this`selectedType
      ensures selectedType == kind
    {
      selectedType := kind;
    }

    /** A palette swatch. */
    method OnSelectColor(color: string)
      modifies this`selectedColor
      ensures selectedColor == color
    {
      selectedColor := color;
    }

    /** Save: hands over the dialog's values exactly when the name is not blank. */
    method Save() returns (request: Option<SaveRequest>)
      ensures request.Some? <==> !IsBlank(name)
      ensures request.Some? ==> request.value == SaveRequest(name, selectedType, selectedColor)
    {
      if !IsBlank(name) {
        request := Some(SaveRequest(name, selectedType, selectedColor));
      } else {
        request := None;
      }
    }
  }

  /** The screen's dialog flags and pending categories. */
  class CategoryScreenState {
    var showAddEditDialog: bool
    var showDeleteDialog: bool
    var showDeleteErrorDialog: bool
    var categoryToEdit: Option<Category>
    var categoryToDelete: Option<Category>
    var calls: seq<CategoryCall>

    constructor ()
      ensures !showAddEditDialog && !showDeleteDialog && !showDeleteErrorDialog
      ensures categoryToEdit == None && categoryToDelete == None && calls == []
    {
      showAddEditDialog, showDeleteDialog, showDeleteErrorDialog := false, false, false;
      categoryToEdit, categoryToDelete := None, None;
      calls := [];
    }

    /** The delete confirmation is on screen. */
    predicate DeleteDialogShown()
      reads this
    {
      showDeleteDialog && categoryToDelete.Some?
    }

    /** The "Cannot Delete Category" message is on screen. */
    predicate DeleteErrorShown()
      reads this
    {
      showDeleteErrorDialog && categoryToDelete.Some?
    }

    /** The add button in the top bar opens an empty dialog. */
    method OnAddClick()
      modifies this`categoryToEdit, this`showAddEditDialog
      ensures categoryToEdit == None && showAddEditDialog
    {
      categoryToEdit := None;
      showAddEditDialog := true;
    }

    /** The edit button of a category row. */
    method OnEditClick(category: Category)
      modifies this`categoryToEdit, this`showAddEditDialog
      ensures categoryToEdit == Some(category) && showAddEditDialog
    {
      categoryToEdit := Some(category);
      showAddEditDialog := true;
    }

    /** The delete button of a category row asks for confirmation. */
    method OnDeleteClick(category: Category)
      modifies this`categoryToDelete, this`showDeleteDialog
      ensures categoryToDelete == Some(category) && showDeleteDialog && DeleteDialogShown()
    {
      categoryToDelete := Some(category);
      showDeleteDialog := true;
    }

    /** Dismissing the add/edit dialog. */
    method OnEditDialogDismiss()
      modifies this`showAddEditDialog, this`categoryToEdit
      ensures !showAddEditDialog && categoryToEdit == None
    {
      showAddEditDialog := false;
      categoryToEdit := None;
    }

    /**
     * The dialog's save callback: an edit keeps the category's id and replaces its name, type
     * and colour; otherwise a new category is inserted. Either way the dialog closes.
     */
    method OnSave(request: SaveRequest)
      modifies this`calls, this`showAddEditDialog, this`categoryToEdit
      ensures old(categoryToEdit).Some? ==>
        calls == old(calls) + [UpdateCategory(Category(old(categoryToEdit).value.id, request.name, request.kind, request.color))]
      ensures old(categoryToEdit).None? ==>
        calls == old(calls) + [InsertCategory(request.name, request.kind, request.color)]
      ensures !showAddEditDialog && categoryToEdit == None
    {
      if categoryToEdit.Some? {
        calls := calls + [UpdateCategory(categoryToEdit.value.(name := request.name, kind := request.kind, color := request.color))];
      } else {
        calls := calls + [InsertCategory(request.name, request.kind, request.color)];
      }
      showAddEditDialog := false;
      categoryToEdit := None;
    }

    /**
     * Delete in the confirmation dialog, given the current transaction list: a category that
     * some transaction uses is kept and the error dialog opens; otherwise it is deleted.
     */
    method OnConfirmDelete(transactions: seq<Transaction>)
      requires categoryToDelete.Some?
      modifies this`calls, this`showDeleteDialog, this`showDeleteErrorDialog, this`categoryToDelete
      ensures !showDeleteDialog
      ensures HasTransactions(transactions, old(categoryToDelete).value.id) ==>
        calls == old(calls) && showDeleteErrorDialog && categoryToDelete == old(categoryToDelete)
        && DeleteErrorShown()
      ensures !HasTransactions(transactions, old(categoryToDelete).value.id) ==>
        calls == old(calls) + [DeleteCategory(old(categoryToDelete).value)]
        && categoryToDelete == None && showDeleteErrorDialog == old(showDeleteErrorDialog)
    {
      var category := categoryToDelete.value;
      if HasTransactions(transactions, category.id) {
        showDeleteDialog := false;
        showDeleteErrorDialog := true;
      } else {
        calls := calls + [DeleteCategory(category)];
        showDeleteDialog := false;
        categoryToDelete := None;
      }
    }

    /** Cancel, or a tap outside, hides the confirmation but keeps the pending category. */
    method OnDeleteDialogDismiss()
      modifies this`showDeleteDialog
      ensures !showDeleteDialog
    {
      showDeleteDialog := false;
    }

    /** OK on the error dialog closes it and forgets the pending category. */
    method OnDeleteErrorOk()
      modifies this`showDeleteErrorDialog, this`categoryToDelete
      ensures !showDeleteErrorDialog && categoryToDelete == None
    {
      showDeleteErrorDialog := false;
      categoryToDelete := None;
    }

    /** A tap outside the error dialog closes it only. */
    method OnDeleteErrorDismiss()
      modifies this`showDeleteErrorDialog
      ensures !showDeleteErrorDialog
    {
      showDeleteErrorDialog := false;
    }
  }

  /** The dependency check over two lists joined is the check over either list. */
  lemma {:induction false} HasTransactionsAppend(xs: seq<Transaction>, ys: seq<Transaction>, categoryId: int)
    ensures HasTransactions(xs + ys, categoryId) <==> HasTransactions(xs, categoryId) || HasTransactions(ys, categoryId)
  {
    if xs == [] {
      assert xs + ys == ys;
    } else {
      assert (xs + ys)[1..] == xs[1..] + ys;
      HasTransactionsAppend(xs[1..], ys, categoryId);
    }
  }
}
