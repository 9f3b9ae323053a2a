/**
 * The fragment of Java regular expressions that the validators use:
 * `^` followed by a sequence of bracket classes or literal characters, each
 * with a quantifier (`{n}`, `{n,}`, `+`, or none), followed by `$`.
 * `String.matches` asks whether the whole input is matched.
 */
module Regex {
  import opened Wrappers

  /** One range `lo-hi` of a bracket expression; a single character `c` is `c-c`. */
  datatype CharRange = CharRange(lo: char, hi: char)

  /** A bracket expression such as `[A-Za-z0-9.-]`, as the list of its ranges. */
  type CharClass = seq<CharRange>

  /** A class followed by its quantifier: at least `min`, at most `max` (None: unbounded). */
  datatype Atom = Atom(cls: CharClass, min: nat, max: Option<nat>)

  /** A pattern `^a1 a2 … an$`. */
  type Pattern = seq<Atom>

  /** The class of a single literal character, e.g. `\.` or `@`. */
  function Lit(c: char): CharClass { [CharRange(c, c)] }

  /** `\d`, taken here as the ASCII digits `[0-9]`. */
  const Digit: CharClass := [CharRange('0', '9')]

  /** `[A-Za-z]` */
  const Letter: CharClass := [CharRange('A', 'Z'), CharRange('a', 'z')]

  /** Quantifier `{n}`. */
  function Exactly(cls: CharClass, n: nat): Atom { Atom(cls, n, Some(n)) }

  /** Quantifier `{n,}` (and `+`, which is `{1,}`). */
  function AtLeast(cls: CharClass, n: nat): Atom { Atom(cls, n, None) }

  predicate InClass(cls: CharClass, c: char) {
    exists i :: 0 <= i < |cls| && cls[i].lo <= c <= cls[i].hi
  }

  predicate AllIn(cls: CharClass, s: string) {
    forall i :: 0 <= i < |s| ==> InClass(cls, s[i])
  }

  /** The atom `a` matches exactly the first `k` characters of `s`. */
  predicate Takes(a: Atom, s: string, k: nat) {
    && k <= |s|
    && a.min <= k
    && (a.max.Some? ==> k <= a.max.value)
    && AllIn(a.cls, s[..k])
  }

  /** The pattern matches the whole of `s` (`String.matches`). */
  predicate FullMatch(p: Pattern, s: string)
    decreases |p|
  {
    if p == [] then s == []
    else exists k: nat :: k <= |s| && Takes(p[0], s, k) && FullMatch(p[1..], s[k..])
  }

  /** An atom with a fixed count consumes exactly that many characters. */
  lemma FixedAtom(p: Pattern, s: string)
    requires p != [] && p[0].max == Some(p[0].min)
    ensures FullMatch(p, s) <==>
      p[0].min <= |s| && AllIn(p[0].cls, s[..p[0].min]) && FullMatch(p[1..], s[p[0].min..])
  {
    var n := p[0].min;
    if n <= |s| && AllIn(p[0].cls, s[..n]) && FullMatch(p[1..], s[n..]) {
      assert Takes(p[0], s, n);
    }
  }

  /** An unbounded last atom consumes the rest of the input. */
  lemma OpenLastAtom(p: Pattern, s: string)
    requires |p| == 1 && p[0].max == None
    ensures FullMatch(p, s) <==> p[0].min <= |s| && AllIn(p[0].cls, s)
  {
    assert s[..|s|] == s;
    if p[0].min <= |s| && AllIn(p[0].cls, s) {
      assert Takes(p[0], s, |s|) && FullMatch(p[1..], s[|s|..]);
    }
  }

  /**
   * The input splits at position `k` for an unbounded atom followed by the
   * literal `x`: the atom takes `s[..k]`, `s[k]` is `x`, and the rest of the
   * pattern matches what follows.
   */
  predicate SplitsAt(p: Pattern, s: string, x: char, k: nat)
    requires |p| >= 2
  {
    p[0].min <= k < |s| && AllIn(p[0].cls, s[..k]) && s[k] == x && FullMatch(p[2..], s[k + 1..])
  }

  /**
   * An unbounded atom followed by a single literal `x`: the match splits the
   * input at some occurrence `k` of `x`.
   */
  lemma OpenAtomThenLiteral(p: Pattern, s: string, x: char)
    requires |p| >= 2 && p[0].max == None && p[1] == Exactly(Lit(x), 1)
    ensures FullMatch(p, s) <==> exists k: nat :: SplitsAt(p, s, x, k)
  {
    if FullMatch(p, s) {
      var k: nat :| k <= |s| && Takes(p[0], s, k) && FullMatch(p[1..], s[k..]);
      SplitFromMatch(p, s, x, k);
    }
    if exists k: nat :: SplitsAt(p, s, x, k) {
      var k: nat :| SplitsAt(p, s, x, k);
      MatchFromSplit(p, s, x, k);
    }
  }

  lemma SplitFromMatch(p: Pattern, s: string, x: char, k: nat)
    requires |p| >= 2 && p[0].max == None && p[1] == Exactly(Lit(x), 1)
    requires k <= |s| && Takes(p[0], s, k) && FullMatch(p[1..], s[k..])
    ensures SplitsAt(p, s, x, k)
  {
    var q := p[1..];
    assert q[1..] == p[2..];
    FixedAtom(q, s[k..]);
    assert InClass(Lit(x), s[k..][0]);
    assert s[k..][1..] == s[k + 1..];
  }

  lemma MatchFromSplit(p: Pattern, s: string, x: char, k: nat)
    requires |p| >= 2 && p[0].max == None && p[1] == Exactly(Lit(x), 1)
    requires SplitsAt(p, s, x, k)
    ensures FullMatch(p, s)
  {
    var q := p[1..];
    assert q[1..] == p[2..];
    FixedAtom(q, s[k..]);
    assert s[k..][1..] == s[k + 1..];
    assert s[k..][..1] == [x];
    assert InClass(Lit(x), x) by { assert Lit(x)[0].lo <= x <= Lit(x)[0].hi; }
    assert Takes(p[0], s, k);
  }

  /** `FixedAtom` for the suffix of a pattern from atom `j` on and the input from position `i` on. */
  lemma FixedAtomAt(p: Pattern, j: nat, s: string, i: nat)
    requires j < |p| && i <= |s| && p[j].max == Some(p[j].min)
    ensures FullMatch(p[j..], s[i..]) <==>
      i + p[j].min <= |s| && AllIn(p[j].cls, s[i..i + p[j].min])
      && FullMatch(p[j + 1..], s[i + p[j].min..])
  {
    var n := p[j].min;
    FixedAtom(p[j..], s[i..]);
    assert p[j..][1..] == p[j + 1..];
    if i + n <= |s| {
      assert s[i..][..n] == s[i..i + n];
      assert s[i..][n..] == s[i + n..];
    }
  }

  lemma InLit(x: char, c: char)
    ensures InClass(Lit(x), c) <==> c == x
  {
    if c == x { assert Lit(x)[0].lo <= c <= Lit(x)[0].hi; }
  }

  lemma InDigit(c: char)
    ensures InClass(Digit, c) <==> '0' <= c <= '9'
  {
    if '0' <= c <= '9' { assert Digit[0].lo <= c <= Digit[0].hi; }
  }

  lemma InLetter(c: char)
    ensures InClass(Letter, c) <==> 'A' <= c <= 'Z' || 'a' <= c <= 'z'
  {
    if 'A' <= c <= 'Z' { assert Letter[0].lo <= c <= Letter[0].hi; }
    if 'a' <= c <= 'z' { assert Letter[1].lo <= c <= Letter[1].hi; }
  }

  predicate AllDigitsBetween(s: string, lo: nat, hi: nat)
    requires lo <= hi <= |s|
  {
    forall i :: lo <= i < hi ==> '0' <= s[i] <= '9'
  }

  lemma DigitRun(s: string, lo: nat, hi: nat)
    requires lo <= hi <= |s|
    ensures AllIn(Digit, s[lo..hi]) <==> AllDigitsBetween(s, lo, hi)
  {
    forall j | 0 <= j < hi - lo ensures InClass(Digit, s[lo..hi][j]) <==> '0' <= s[lo + j] <= '9' {
      assert s[lo..hi][j] == s[lo + j];
      InDigit(s[lo + j]);
    }
    assert forall i :: lo <= i < hi ==> s[i] == s[lo..hi][i - lo];
  }

  lemma SingleIn(cls: CharClass, s: string, i: nat)
    requires i < |s|
    ensures AllIn(cls, s[i..i + 1]) <==> InClass(cls, s[i])
  {
    assert s[i..i + 1][0] == s[i];
  }

  /**
   * The layout `\d{3}S\d{3}S\d{4}` of a phone number with a one-character
   * separator class `S`: twelve characters, digits everywhere except at
   * positions 3 and 7, which are in `S`.
   */
  lemma PhoneLayout(p: Pattern, sep: CharClass, s: string)
    requires p == [Exactly(Digit, 3), Exactly(sep, 1), Exactly(Digit, 3), Exactly(sep, 1), Exactly(Digit, 4)]
    ensures FullMatch(p, s) <==>
      && |s| == 12
      && AllDigitsBetween(s, 0, 3) && AllDigitsBetween(s, 4, 7) && AllDigitsBetween(s, 8, 12)
      && InClass(sep, s[3]) && InClass(sep, s[7])
  {
    assert p[5..] == [];
    if FullMatch(p, s) {
      FixedAtomAt(p, 0, s, 0);
      FixedAtomAt(p, 1, s, 3);
      FixedAtomAt(p, 2, s, 4);
      FixedAtomAt(p, 3, s, 7);
      FixedAtomAt(p, 4, s, 8);
      DigitRun(s, 0, 3); DigitRun(s, 4, 7); DigitRun(s, 8, 12);
      SingleIn(sep, s, 3); SingleIn(sep, s, 7);
    }
    if |s| == 12 {
      DigitRun(s, 0, 3); DigitRun(s, 4, 7); DigitRun(s, 8, 12);
      SingleIn(sep, s, 3); SingleIn(sep, s, 7);
      FixedAtomAt(p, 4, s, 8);
      FixedAtomAt(p, 3, s, 7);
      FixedAtomAt(p, 2, s, 4);
      FixedAtomAt(p, 1, s, 3);
      FixedAtomAt(p, 0, s, 0);
    }
  }
}
