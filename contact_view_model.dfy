/**
 * The view-model of the ContactViewApp: the search text, the sort order, the
 * two input fields, the choice of the repository stream that the contact list
 * follows, and the phone-number check used by the Add button.
 */
module ContactView {
  import opened Text
  import opened Regex

  /** A row of the contact table; `id` is 0 until the database assigns one. */
  datatype Contact = Contact(id: int, name: string, phoneNumber: string)

  datatype SortOrder = ASC | DESC

  /** The repository stream the contact list follows. */
  datatype ContactQuery =
    | SortedByNameAsc            // getContactsSortedByNameAsc()
    | SortedByNameDesc           // getContactsSortedByNameDesc()
    | FindContacts(pattern: string)  // findContacts(pattern): names LIKE pattern

  /** A call the view-model forwards to the repository. */
  datatype RepositoryCall = Insert(contact: Contact) | Delete(contact: Contact)

  /** `^[0-9]{3}\.[0-9]{3}\.[0-9]{4}$` */
  const DottedPhonePattern: Pattern :=
    [Exactly(Digit, 3), Exactly(Lit('.'), 1), Exactly(Digit, 3),
     Exactly(Lit('.'), 1), Exactly(Digit, 4)]

  /** Three digits, '.', three digits, '.', four digits. */
  predicate DottedPhoneShape(s: string) {
    && |s| == 12
    && (forall i :: 0 <= i < 12 && i != 3 && i != 7 ==> IsAsciiDigit(s[i]))
    && s[3] == '.' && s[7] == '.'
  }

  /** `isValidPhoneNumber`: no special case for blank input, so blank text is rejected. */
  function IsValidPhoneNumber(phoneNumber: string): (ok: bool)
    ensures ok <==> DottedPhoneShape(phoneNumber)
    ensures ok ==> !IsBlank(phoneNumber)
  {
    DottedPhonePatternMeaning(phoneNumber);
    DottedPhoneNotBlank(phoneNumber);
    FullMatch(DottedPhonePattern, phoneNumber)
  }

  lemma DottedPhoneNotBlank(s: string)
    ensures DottedPhoneShape(s) ==> !IsBlank(s)
  {
    if DottedPhoneShape(s) { assert !IsWhitespace(s[0]); }
  }

  lemma DottedPhonePatternMeaning(s: string)
    ensures FullMatch(DottedPhonePattern, s) <==> DottedPhoneShape(s)
  {
    PhoneLayout(DottedPhonePattern, Lit('.'), s);
    if |s| == 12 {
      InLit('.', s[3]);
      InLit('.', s[7]);
    }
  }

  /**
   * The `combine` step of `allContacts`: the stream chosen for a search text
   * and a sort order. A non-blank search uses `findContacts("%query%")`.
   */
  function SelectQuery(query: string, order: SortOrder): (q: ContactQuery)
    ensures q.FindContacts? <==> !IsBlank(query)
    ensures q.FindContacts? ==> |q.pattern| == |query| + 2 && q.pattern[1..|q.pattern| - 1] == query
    ensures q.FindContacts? ==> q.pattern[0] == '%' && q.pattern[|q.pattern| - 1] == '%'
    ensures q == SortedByNameAsc <==> IsBlank(query) && order == ASC
    ensures q == SortedByNameDesc <==> IsBlank(query) && order == DESC
  {
    match order
    case ASC => if IsBlank(query) then SortedByNameAsc else FindContacts("%" + query + "%")
    case DESC => if IsBlank(query) then SortedByNameDesc else FindContacts("%" + query + "%")
  }

  /** While a search is active the sort order has no effect. */
  lemma SearchIgnoresSortOrder(query: string)
    requires !IsBlank(query)
    ensures SelectQuery(query, ASC) == SelectQuery(query, DESC)
  {
  }

  class ContactViewModel {
    var searchQuery: string
    var sortOrder: SortOrder
    var name: string
    var phoneNumber: string
    /** The calls forwarded to the repository, oldest first. */
    var calls: seq<RepositoryCall>

    constructor ()
      ensures searchQuery == "" && sortOrder == ASC && name == "" && phoneNumber == ""
      ensures calls == []
    {
      searchQuery, sortOrder, name, phoneNumber := "", ASC, "", "";
      calls := [];
    }

    /** `allContacts`: the stream the list currently follows. */
    function AllContacts(): ContactQuery
      reads this
    {
      SelectQuery(searchQuery, sortOrder)
    }

    method OnSearchQueryChange(newQuery: string)
      modifies this`searchQuery
      ensures searchQuery == newQuery
    {
      searchQuery := newQuery;
    }

    method OnSortOrderChange(order: SortOrder)
      modifies this`sortOrder
      ensures sortOrder == order
    {
      sortOrder := order;
    }

    method Insert(contact: Contact)
      modifies this`calls
      ensures calls == old(calls) + [RepositoryCall.Insert(contact)]
    {
      calls := calls + [RepositoryCall.Insert(contact)];
    }

    method Delete(contact: Contact)
      modifies this`calls
      ensures calls == old(calls) + [RepositoryCall.Delete(contact)]
    {
      calls := calls + [RepositoryCall.Delete(contact)];
    }

    method OnNameChange(newName: string)
      modifies this`name
      ensures name == newName
    {
      name := newName;
    }

    method OnPhoneNumberChange(newPhoneNumber: string)
      modifies this`phoneNumber
      ensures phoneNumber == newPhoneNumber
    {
      phoneNumber := newPhoneNumber;
    }

    method ClearInputFields()
      modifies this`name, this`phoneNumber
      ensures name == "" && phoneNumber == ""
    {
      name := "";
      phoneNumber := "";
    }
  }
}
