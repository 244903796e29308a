/** The email-shape test of the login form: the unanchored regular expression
    `\S+@\S+\.\S+`, as JavaScript's `RegExp.prototype.test` applies it. */
module EmailPattern {

  /** JavaScript's `\s`: the ECMAScript WhiteSpace and LineTerminator code
      points (tab, vertical tab, form feed, space, no-break space, the byte
      order mark, every Unicode "Zs" space separator, line feed, carriage
      return, line separator and paragraph separator). `\S` is its complement. */
  predicate IsSpace(c: char) {
    || c == '\t' || c == '\U{000B}' || c == '\U{000C}' || c == ' '
    || c == '\U{00A0}' || c == '\U{FEFF}'
    || c == '\U{1680}' || ('\U{2000}' <= c <= '\U{200A}')
    || c == '\U{202F}' || c == '\U{205F}' || c == '\U{3000}'
    || c == '\n' || c == '\r' || c == '\U{2028}' || c == '\U{2029}'
  }

  /** Every character of `s[lo..hi]` matches `\S`. */
  predicate NonSpaceRun(s: string, lo: int, hi: int)
    requires 0 <= lo <= hi <= |s|
  {
    forall k | lo <= k < hi :: !IsSpace(s[k])
  }

  /** The shape check used by the form, at a chosen '@' (index `at`) and
      '.' (index `d`): the '@' is preceded by a non-space character, the
      characters strictly between the two are a non-empty run of non-space
      characters, and the '.' is followed by a non-space character. */
  predicate ShapeAt(s: string, at: int, d: int) {
    && 0 < at && at + 1 < d && d + 1 < |s|
    && s[at] == '@' && !IsSpace(s[at - 1])
    && NonSpaceRun(s, at + 1, d)
    && s[d] == '.' && !IsSpace(s[d + 1])
  }

  /** The email is accepted when the shape is found at some '@' and '.'. */
  predicate EmailShape(s: string) {
    exists at, d | 0 < at < |s| && 0 < d < |s| :: ShapeAt(s, at, d)
  }

  /** `s[i..j]` is a word of the language of `\S+@\S+\.\S+`, split as
      `s[i..at]` `@` `s[at+1..d]` `.` `s[d+1..j]`. */
  ghost predicate MatchesAt(s: string, i: int, at: int, d: int, j: int) {
    && 0 <= i < at && at + 1 < d && d + 1 < j <= |s|
    && NonSpaceRun(s, i, at)
    && s[at] == '@'
    && NonSpaceRun(s, at + 1, d)
    && s[d] == '.'
    && NonSpaceRun(s, d + 1, j)
  }

  /** What an unanchored `test` decides: some substring of `s` is in the
      language of the pattern. */
  ghost predicate ContainsEmailMatch(s: string) {
    exists i, at, d, j :: MatchesAt(s, i, at, d, j)
  }

  /** The form's shape check accepts exactly the strings the regular
      expression finds a match in. */
  lemma EmailShapeIsRegexTest(s: string)
    ensures EmailShape(s) <==> ContainsEmailMatch(s)
  {
    if EmailShape(s) {
      var at, d :| 0 < at < |s| && 0 < d < |s| && ShapeAt(s, at, d);
      assert MatchesAt(s, at - 1, at, d, d + 2);
    }
    if ContainsEmailMatch(s) {
      var i, at, d, j :| MatchesAt(s, i, at, d, j);
      assert ShapeAt(s, at, d);
    }
  }

  /** The match is unanchored: text added before or after an accepted
      string never makes it rejected. */
  lemma EmailShapeSurvivesContext(p: string, s: string, q: string)
    requires EmailShape(s)
    ensures EmailShape(p + s + q)
  {
    var at, d :| 0 < at < |s| && 0 < d < |s| && ShapeAt(s, at, d);
    var w := p + s + q;
    assert forall k | 0 <= k < |s| :: w[|p| + k] == s[k];
    assert ShapeAt(w, |p| + at, |p| + d);
  }

  /** A string with no '.' anywhere after an '@' is rejected. */
  lemma NoDotAfterAtIsRejected(s: string)
    requires forall i, j | 0 <= i < j < |s| :: s[i] == '@' ==> s[j] != '.'
    ensures !EmailShape(s)
  {
  }

  /** A string in which every '@' is first or comes right after a space is
      rejected. */
  lemma NoTextBeforeAtIsRejected(s: string)
    requires forall i | 0 <= i < |s| && s[i] == '@' :: i == 0 || IsSpace(s[i - 1])
    ensures !EmailShape(s)
  {
  }

  /** Four concrete strings: an address alone and inside other text is
      accepted; one without a '.' after its '@', and one with a space right
      before its '@', are rejected. */
  lemma EmailShapeExamples()
    ensures EmailShape("alice@x.com")
    ensures EmailShape("to: alice@x.com ")
    ensures !EmailShape("alice@xcom")
    ensures !EmailShape("alice @x.com")
  {
    var a := "alice@x.com";
    assert ShapeAt(a, 5, 7);
    var b := "to: alice@x.com ";
    assert ShapeAt(b, 9, 11);
    var c := "alice@xcom";
    forall at, d | 0 < at < |c| && 0 < d < |c|
      ensures !ShapeAt(c, at, d)
    {
      assert c[d] != '.';
    }
    var e := "alice @x.com";
    forall at, d | 0 < at < |e| && 0 < d < |e|
      ensures !ShapeAt(e, at, d)
    {
      if e[at] == '@' {
        assert at == 6 && IsSpace(e[at - 1]);
      }
    }
  }

}
