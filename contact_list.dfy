/**
 * The contact list screen: one selected contact at a time, the header that
 * names it, and the avatar initials computed from a contact's name.
 */
module ContactList {
  import opened Wrappers

  datatype Contact = Contact(name: string, email: string, phone: string)

  /** Kotlin's `split(" ")`: the pieces between single spaces, empty pieces included. */
  function Split(s: string): (parts: seq<string>)
    ensures |parts| >= 1
    ensures forall i :: 0 <= i < |parts| ==> ' ' !in parts[i]
  {
    if s == [] then [""]
    else
      var rest := Split(s[1..]);
      if s[0] == ' ' then [""] + rest else [[s[0]] + rest[0]] + rest[1..]
  }

  /** `joinToString(" ")`, the inverse of `Split`. */
  function Join(parts: seq<string>): string
    requires |parts| >= 1
  {
    if |parts| == 1 then parts[0] else parts[0] + " " + Join(parts[1..])
  }

  /** Splitting loses nothing: joining the pieces with single spaces gives back the name. */
  lemma {:induction false} JoinSplit(s: string)
    ensures Join(Split(s)) == s
  {
    if s != [] {
      var rest := Split(s[1..]);
      JoinSplit(s[1..]);
      if s[0] == ' ' {
        assert Split(s) == [""] + rest;
        assert Split(s)[1..] == rest;
        assert Join(Split(s)) == "" + " " + Join(rest);
      } else {
        assert Split(s) == [[s[0]] + rest[0]] + rest[1..];
        if |rest| == 1 {
          assert Join(Split(s)) == [s[0]] + rest[0];
        } else {
          assert Split(s)[1..] == rest[1..];
          assert Join(rest) == rest[0] + " " + Join(rest[1..]);
        }
      }
    }
  }

  /** No two spaces next to each other. */
  predicate NoDoubleSpace(s: string) {
    forall i :: 0 <= i < |s| - 1 ==> !(s[i] == ' ' && s[i + 1] == ' ')
  }

  /** Non-empty, with no leading, trailing or doubled space. */
  predicate WellSpaced(s: string) {
    s != [] && s[0] != ' ' && s[|s| - 1] != ' ' && NoDoubleSpace(s)
  }

  /** The first character of every piece, in order. */
  function FirstChars(parts: seq<string>): (r: string)
    requires "" !in parts
    ensures |r| == |parts|
    ensures forall i :: 0 <= i < |parts| ==> r[i] == parts[i][0]
  {
    if parts == [] then [] else [parts[0][0]] + FirstChars(parts[1..])
  }

  /**
   * `name.split(" ").map { it.first() }.joinToString("")`: `first()` throws on an empty piece,
   * which is `None` here.
   */
  function Initials(name: string): (r: Option<string>)
    ensures r.Some? <==> WellSpaced(name)
    ensures r.Some? ==>
      "" !in Split(name) && |r.value| == |Split(name)| && forall i :: 0 <= i < |Split(name)| ==> r.value[i] == Split(name)[i][0]
  {
    SplitPieces(name);
    if "" in Split(name) then None else Some(FirstChars(Split(name)))
  }

  /**
   * Which names split into non-empty pieces: all pieces are non-empty exactly when the name is
   * well spaced, and all pieces but the first exactly when there is no doubled or trailing space.
   */
  lemma {:induction false} SplitPieces(s: string)
    ensures "" !in Split(s) <==> WellSpaced(s)
    ensures "" !in Split(s)[1..] <==> NoDoubleSpace(s) && (s == [] || s[|s| - 1] != ' ')
  {
    if s != [] {
      var u := s[1..];
      var rest := Split(u);
      SplitPieces(u);
      assert NoDoubleSpace(s) <==> (|s| >= 2 ==> !(s[0] == ' ' && s[1] == ' ')) && NoDoubleSpace(u) by {
        if NoDoubleSpace(s) {
          forall i | 0 <= i < |u| - 1
            ensures !(u[i] == ' ' && u[i + 1] == ' ')
          {
            assert u[i] == s[i + 1] && u[i + 1] == s[i + 2];
          }
        }
        if (|s| >= 2 ==> !(s[0] == ' ' && s[1] == ' ')) && NoDoubleSpace(u) {
          forall i | 0 <= i < |s| - 1
            ensures !(s[i] == ' ' && s[i + 1] == ' ')
          {
            if i > 0 {
              assert s[i] == u[i - 1] && s[i + 1] == u[i];
            }
          }
        }
      }
      if s[0] == ' ' {
        assert Split(s) == [""] + rest;
        assert Split(s)[1..] == rest;
      } else {
        assert Split(s) == [[s[0]] + rest[0]] + rest[1..];
        assert Split(s)[1..] == rest[1..];
        assert "" !in Split(s) <==> "" !in rest[1..];
      }
    }
  }

  /** Kotlin's generated `toString` of the `Contact` data class. */
  function ContactText(c: Contact): string {
    "Contact(name=" + c.name + ", email=" + c.email + ", phone=" + c.phone + ")"
  }

  const NoSelectionText: string := "No contact has been selected"

  /** The list's selection state. */
  class ContactListState {
    var selectedContact: Option<Contact>

    constructor ()
      ensures selectedContact == None
    {
      selectedContact := None;
    }

    /** A row is highlighted when its contact equals the selection field by field. */
    predicate IsSelected(c: Contact)
      reads this
    {
      selectedContact == Some(c)
    }

    /** The Clear Selection button is on screen. */
    predicate ClearOffered()
      reads this
    {
      selectedContact.Some?
    }

    /** The line above the list. */
    function Header(): (text: string)
      reads this
      ensures text == NoSelectionText <==> selectedContact.None?
      ensures selectedContact.Some? ==> text == "Selected: " + ContactText(selectedContact.value)
    {
      if selectedContact.Some? then
        var t := "Selected: " + ContactText(selectedContact.value);
        assert t[0] != NoSelectionText[0];
        t
      else NoSelectionText
    }

    /** Clicking a row selects that contact and only that contact. */
    method OnContactClick(c: Contact)
      modifies this`selectedContact
      ensures selectedContact == Some(c)
      ensures forall d :: IsSelected(d) <==> d == c
      ensures ClearOffered()
    {
      selectedContact := Some(c);
    }

    /** Clear Selection: nothing is selected afterwards and the button goes away. */
    method ClearSelection()
      modifies this`selectedContact
      ensures selectedContact == None
      ensures forall d :: !IsSelected(d)
      ensures !ClearOffered() && Header() == NoSelectionText
    {
      selectedContact := None;
    }
  }
}
