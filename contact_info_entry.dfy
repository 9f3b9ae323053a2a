/**
 * The contact form of the ContactInfoEntry app: three regular-expression
 * validators and the form state that their results drive.
 */
module ContactInfoEntry {
  import opened Text
  import opened Regex

  // The regular expressions, written atom by atom.

  /** `[A-Za-z0-9+_.-]` */
  const LocalClass: CharClass :=
    [CharRange('A', 'Z'), CharRange('a', 'z'), CharRange('0', '9'),
     CharRange('+', '+'), CharRange('_', '_'), CharRange('.', '.'), CharRange('-', '-')]

  /** `[A-Za-z0-9.-]` */
  const DomainClass: CharClass :=
    [CharRange('A', 'Z'), CharRange('a', 'z'), CharRange('0', '9'),
     CharRange('.', '.'), CharRange('-', '-')]

  /** `[-/]` */
  const SeparatorClass: CharClass := [CharRange('-', '-'), CharRange('/', '/')]

  /** `^[A-Za-z0-9+_.-]+@[A-Za-z0-9.-]+\.[A-Za-z]{2,}$` */
  const EmailPattern: Pattern :=
    [AtLeast(LocalClass, 1), Exactly(Lit('@'), 1), AtLeast(DomainClass, 1),
     Exactly(Lit('.'), 1), AtLeast(Letter, 2)]

  /** `^\d{3}[-/]\d{3}[-/]\d{4}$` */
  const PhonePattern: Pattern :=
    [Exactly(Digit, 3), Exactly(SeparatorClass, 1), Exactly(Digit, 3),
     Exactly(SeparatorClass, 1), Exactly(Digit, 4)]

  /** `^\d{5}$` */
  const ZipPattern: Pattern := [Exactly(Digit, 5)]

  // What the patterns accept, stated position by position.

  predicate IsLocalChar(c: char) {
    IsAsciiLetter(c) || IsAsciiDigit(c) || c == '+' || c == '_' || c == '.' || c == '-'
  }

  predicate IsDomainChar(c: char) {
    IsAsciiLetter(c) || IsAsciiDigit(c) || c == '.' || c == '-'
  }

  predicate IsPhoneSeparator(c: char) { c == '-' || c == '/' }

  /** Three digits, a separator, three digits, a separator, four digits; the separators independently '-' or '/'. */
  predicate PhoneShape(s: string) {
    && |s| == 12
    && (forall i :: 0 <= i < 12 && i != 3 && i != 7 ==> IsAsciiDigit(s[i]))
    && IsPhoneSeparator(s[3]) && IsPhoneSeparator(s[7])
  }

  /** Exactly five ASCII digits. */
  predicate ZipShape(s: string) {
    |s| == 5 && forall i :: 0 <= i < 5 ==> IsAsciiDigit(s[i])
  }

  /** `a` is the position of the one and only '@' of `s`. */
  predicate OnlyAtSign(s: string, a: int) {
    0 <= a < |s| && s[a] == '@' && forall i :: 0 <= i < |s| && s[i] == '@' ==> i == a
  }

  /** `d` is the position of the last '.' of `r`. */
  predicate IsLastDot(r: string, d: int) {
    0 <= d < |r| && r[d] == '.' && forall j :: d < j < |r| ==> r[j] != '.'
  }

  /**
   * The part after '@': characters of [A-Za-z0-9.-], a last '.', at least one
   * character before that dot, and at least two ASCII letters after it.
   */
  ghost predicate DomainShape(r: string) {
    exists d ::
      && IsLastDot(r, d) && d >= 1
      && (forall j :: 0 <= j < d ==> IsDomainChar(r[j]))
      && |r| - d - 1 >= 2
      && (forall j :: d < j < |r| ==> IsAsciiLetter(r[j]))
  }

  /** Exactly one '@', a non-empty local part over [A-Za-z0-9+_.-] before it, a valid domain after it. */
  ghost predicate EmailShape(s: string) {
    exists a ::
      && OnlyAtSign(s, a) && a >= 1
      && (forall i :: 0 <= i < a ==> IsLocalChar(s[i]))
      && DomainShape(s[a + 1..])
  }

  // The validators (MainActivity.kt:283-299): blank input is accepted.

  function ValidateEmail(email: string): (ok: bool)
    ensures ok <==> IsBlank(email) || EmailShape(email)
  {
    EmailPatternMeaning(email);
    IsBlank(email) || FullMatch(EmailPattern, email)
  }

  function ValidatePhone(phone: string): (ok: bool)
    ensures ok <==> IsBlank(phone) || PhoneShape(phone)
  {
    PhonePatternMeaning(phone);
    IsBlank(phone) || FullMatch(PhonePattern, phone)
  }

  function ValidateZipCode(zipCode: string): (ok: bool)
    ensures ok <==> IsBlank(zipCode) || ZipShape(zipCode)
  {
    ZipPatternMeaning(zipCode);
    IsBlank(zipCode) || FullMatch(ZipPattern, zipCode)
  }

  // The regular expressions mean what the shapes above say.

  lemma LocalClassMeaning(c: char)
    ensures InClass(LocalClass, c) <==> IsLocalChar(c)
  {
    var k := LocalClass;
    if 'A' <= c <= 'Z' { assert k[0].lo <= c <= k[0].hi; }
    if 'a' <= c <= 'z' { assert k[1].lo <= c <= k[1].hi; }
    if '0' <= c <= '9' { assert k[2].lo <= c <= k[2].hi; }
    if c == '+' { assert k[3].lo <= c <= k[3].hi; }
    if c == '_' { assert k[4].lo <= c <= k[4].hi; }
    if c == '.' { assert k[5].lo <= c <= k[5].hi; }
    if c == '-' { assert k[6].lo <= c <= k[6].hi; }
  }

  lemma DomainClassMeaning(c: char)
    ensures InClass(DomainClass, c) <==> IsDomainChar(c)
  {
    var k := DomainClass;
    if 'A' <= c <= 'Z' { assert k[0].lo <= c <= k[0].hi; }
    if 'a' <= c <= 'z' { assert k[1].lo <= c <= k[1].hi; }
    if '0' <= c <= '9' { assert k[2].lo <= c <= k[2].hi; }
    if c == '.' { assert k[3].lo <= c <= k[3].hi; }
    if c == '-' { assert k[4].lo <= c <= k[4].hi; }
  }

  lemma SeparatorClassMeaning(c: char)
    ensures InClass(SeparatorClass, c) <==> IsPhoneSeparator(c)
  {
    var k := SeparatorClass;
    if c == '-' { assert k[0].lo <= c <= k[0].hi; }
    if c == '/' { assert k[1].lo <= c <= k[1].hi; }
  }

  lemma AllDigits(t: string)
    ensures AllIn(Digit, t) <==> forall i :: 0 <= i < |t| ==> IsAsciiDigit(t[i])
  {
    forall i | 0 <= i < |t| { InDigit(t[i]); }
  }

  lemma AllLetters(t: string)
    ensures AllIn(Letter, t) <==> forall i :: 0 <= i < |t| ==> IsAsciiLetter(t[i])
  {
    forall i | 0 <= i < |t| { InLetter(t[i]); }
  }

  lemma AllLocal(t: string)
    ensures AllIn(LocalClass, t) <==> forall i :: 0 <= i < |t| ==> IsLocalChar(t[i])
  {
    forall i | 0 <= i < |t| { LocalClassMeaning(t[i]); }
  }

  lemma AllDomain(t: string)
    ensures AllIn(DomainClass, t) <==> forall i :: 0 <= i < |t| ==> IsDomainChar(t[i])
  {
    forall i | 0 <= i < |t| { DomainClassMeaning(t[i]); }
  }

  lemma ZipPatternMeaning(s: string)
    ensures FullMatch(ZipPattern, s) <==> ZipShape(s)
  {
    var p := ZipPattern;
    FixedAtomAt(p, 0, s, 0);
    assert p[1..] == [];
    if 5 <= |s| {
      AllDigits(s[0..5]);
      assert forall i :: 0 <= i < 5 ==> s[0..5][i] == s[i];
    }
  }

  lemma PhonePatternMeaning(s: string)
    ensures FullMatch(PhonePattern, s) <==> PhoneShape(s)
  {
    PhoneLayout(PhonePattern, SeparatorClass, s);
    if |s| == 12 {
      SeparatorClassMeaning(s[3]);
      SeparatorClassMeaning(s[7]);
    }
  }

  lemma DomainPatternMeaning(r: string)
    ensures FullMatch(EmailPattern[2..], r) <==> DomainShape(r)
  {
    var p := EmailPattern[2..];
    var tail := p[2..];
    OpenAtomThenLiteral(p, r, '.');
    if FullMatch(p, r) {
      var d: nat :| SplitsAt(p, r, '.', d);
      OpenLastAtom(tail, r[d + 1..]);
      AllDomain(r[..d]);
      AllLetters(r[d + 1..]);
      assert forall j :: d < j < |r| ==> r[j] == r[d + 1..][j - d - 1];
      assert forall j :: 0 <= j < d ==> r[j] == r[..d][j];
      forall j | d < j < |r| ensures r[j] != '.' && IsAsciiLetter(r[j]) {
        assert IsAsciiLetter(r[d + 1..][j - d - 1]);
      }
      assert IsLastDot(r, d);
    }
    if DomainShape(r) {
      var d :| && IsLastDot(r, d) && d >= 1
               && (forall j :: 0 <= j < d ==> IsDomainChar(r[j]))
               && |r| - d - 1 >= 2
               && (forall j :: d < j < |r| ==> IsAsciiLetter(r[j]));
      OpenLastAtom(tail, r[d + 1..]);
      AllDomain(r[..d]);
      AllLetters(r[d + 1..]);
      assert forall j :: d < j < |r| ==> r[d + 1..][j - d - 1] == r[j];
      assert SplitsAt(p, r, '.', d);
    }
  }

  lemma EmailPatternMeaning(s: string)
    ensures FullMatch(EmailPattern, s) <==> EmailShape(s)
  {
    var p := EmailPattern;
    OpenAtomThenLiteral(p, s, '@');
    if FullMatch(p, s) {
      var a: nat :| SplitsAt(p, s, '@', a);
      var r := s[a + 1..];
      DomainPatternMeaning(r);
      AllLocal(s[..a]);
      assert forall i :: 0 <= i < a ==> s[i] == s[..a][i];
      NoAtSignInDomain(r);
      forall i | 0 <= i < a ensures s[i] != '@' {
        assert IsLocalChar(s[..a][i]);
      }
      forall i | a < i < |s| ensures s[i] != '@' {
        assert r[i - a - 1] == s[i];
      }
      assert OnlyAtSign(s, a);
    }
    if EmailShape(s) {
      var a :| && OnlyAtSign(s, a) && a >= 1
               && (forall i :: 0 <= i < a ==> IsLocalChar(s[i]))
               && DomainShape(s[a + 1..]);
      DomainPatternMeaning(s[a + 1..]);
      AllLocal(s[..a]);
      assert p[2..] == EmailPattern[2..];
      assert SplitsAt(p, s, '@', a);
    }
  }

  lemma NoAtSignInDomain(r: string)
    requires DomainShape(r)
    ensures forall j :: 0 <= j < |r| ==> r[j] != '@'
  {
  }

  // The form (MainActivity.kt:50-157).

  /** The text put on the card by a successful submit (MainActivity.kt:147). */
  function Summary(name: string, email: string, phone: string, zipCode: string): string {
    "Name: " + name + "\nEmail: " + email + "\nPhone: " + phone + " \nZip: " + zipCode
  }

  class ContactForm {
    var name: string
    var email: string
    var phone: string
    var zipCode: string
    var submittedInformation: string
    var isNameValid: bool
    var isEmailValid: bool
    var isPhoneValid: bool
    var isZipCodeValid: bool

    /**
     * Every flag agrees with its validator for the field's current text; the
     * name flag starts true on an empty name, so it is only known to hold
     * for a non-blank name.
     */
    ghost predicate Valid()
      reads this
    {
      && (!IsBlank(name) ==> isNameValid)
      && isEmailValid == ValidateEmail(email)
      && isPhoneValid == ValidatePhone(phone)
      && isZipCodeValid == ValidateZipCode(zipCode)
    }

    constructor ()
      ensures Valid()
      ensures name == "" && email == "" && phone == "" && zipCode == "" && submittedInformation == ""
      ensures isNameValid && isEmailValid && isPhoneValid && isZipCodeValid
    {
      name, email, phone, zipCode := "", "", "", "";
      submittedInformation := "";
      isNameValid, isEmailValid, isPhoneValid, isZipCodeValid := true, true, true, true;
    }

    method OnNameChange(newName: string)
      requires Valid()
      modifies this`name, this`isNameValid
      ensures Valid()
      ensures name == newName && isNameValid == !IsBlank(newName)
    {
      name := newName;
      isNameValid := !IsBlank(newName);
    }

    method OnEmailChange(newEmail: string)
      requires Valid()
      modifies this`email, this`isEmailValid
      ensures Valid()
      ensures email == newEmail && isEmailValid == (IsBlank(newEmail) || EmailShape(newEmail))
    {
      email := newEmail;
      isEmailValid := ValidateEmail(newEmail);
    }

    method OnPhoneChange(newPhone: string)
      requires Valid()
      modifies this`phone, this`isPhoneValid
      ensures Valid()
      ensures phone == newPhone && isPhoneValid == (IsBlank(newPhone) || PhoneShape(newPhone))
    {
      phone := newPhone;
      isPhoneValid := ValidatePhone(newPhone);
    }

    method OnZipCodeChange(newZipCode: string)
      requires Valid()
      modifies this`zipCode, this`isZipCodeValid
      ensures Valid()
      ensures zipCode == newZipCode && isZipCodeValid == (IsBlank(newZipCode) || ZipShape(newZipCode))
    {
      zipCode := newZipCode;
      isZipCodeValid := ValidateZipCode(newZipCode);
    }

    /** The submit button's `enabled` condition, which its click handler repeats. */
    predicate CanSubmit()
      reads this
    {
      && !IsBlank(name) && !IsBlank(email) && !IsBlank(phone) && !IsBlank(zipCode)
      && isNameValid && isEmailValid && isPhoneValid && isZipCodeValid
    }

    method Submit()
      modifies this`submittedInformation
      ensures old(CanSubmit()) ==> submittedInformation == Summary(name, email, phone, zipCode)
      ensures !old(CanSubmit()) ==> submittedInformation == old(submittedInformation)
    {
      if CanSubmit() {
        submittedInformation := Summary(name, email, phone, zipCode);
      }
    }

    /** The `isError` flags of the four fields. */
    predicate NameShowsError() reads this { !IsBlank(name) && !isNameValid }
    predicate EmailShowsError() reads this { !IsBlank(email) && !isEmailValid }
    predicate PhoneShowsError() reads this { !IsBlank(phone) && !isPhoneValid }
    predicate ZipCodeShowsError() reads this { !IsBlank(zipCode) && !isZipCodeValid }

    /** The card with the submitted text is shown. */
    predicate ShowsCard() reads this { !IsBlank(submittedInformation) }
  }

  /**
   * In a consistent form, submitting is possible exactly when every field is
   * non-blank and matches its format.
   */
  lemma CanSubmitMeaning(f: ContactForm)
    requires f.Valid()
    ensures f.CanSubmit() <==>
      !IsBlank(f.name) && EmailShape(f.email) && PhoneShape(f.phone) && ZipShape(f.zipCode)
  {
    if EmailShape(f.email) {
      var a :| OnlyAtSign(f.email, a);
      assert !IsWhitespace(f.email[a]);
    }
    if PhoneShape(f.phone) { assert !IsWhitespace(f.phone[0]); }
    if ZipShape(f.zipCode) { assert !IsWhitespace(f.zipCode[0]); }
  }

  /**
   * An error is shown only for a non-blank field that fails its format; the
   * name field's error can never be shown.
   */
  lemma ErrorsMeaning(f: ContactForm)
    requires f.Valid()
    ensures !f.NameShowsError()
    ensures f.EmailShowsError() <==> !IsBlank(f.email) && !EmailShape(f.email)
    ensures f.PhoneShowsError() <==> !IsBlank(f.phone) && !PhoneShape(f.phone)
    ensures f.ZipCodeShowsError() <==> !IsBlank(f.zipCode) && !ZipShape(f.zipCode)
  {
  }

  /** The submitted text is never blank, so a successful submit always shows the card. */
  lemma SummaryNotBlank(name: string, email: string, phone: string, zipCode: string)
    ensures !IsBlank(Summary(name, email, phone, zipCode))
  {
    assert Summary(name, email, phone, zipCode)[0] == 'N';
  }
}
