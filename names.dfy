/** The folder-name rule: the pattern `^[\w\-\s_]+$`, matched against the whole name, and a
    maximum length. Java's `\w` and `\s` are the ASCII classes here (no UNICODE_CHARACTER_CLASS
    flag is given). */
module Names {

  /** Largest name length accepted, 10 MiB: the limit validateRequest uses, which its comment
      calls the maximum length of a Postgres text column. */
  const MaxNameLength: nat := 10 * 1024 * 1024

  /** `\w`: an ASCII letter, an ASCII digit or `_`. */
  predicate IsWordChar(c: char) {
    ('a' <= c <= 'z') || ('A' <= c <= 'Z') || ('0' <= c <= '9') || c == '_'
  }

  /** `\s`: space, tab, newline, vertical tab, form feed, carriage return. */
  predicate IsSpaceChar(c: char) {
    c == ' ' || c == '\t' || c == '\n' || c == '\U{000B}' || c == '\U{000C}' || c == '\r'
  }

  /** The bracket class `[\w\-\s_]`. */
  predicate InNameClass(c: char) {
    IsWordChar(c) || c == '-' || IsSpaceChar(c) || c == '_'
  }

  /** The regular expression `[\w\-\s_]*`, matched against all of `s`. */
  predicate MatchesClassStar(s: string)
    decreases |s|
  {
    |s| == 0 || (InNameClass(s[0]) && MatchesClassStar(s[1..]))
  }

  /** `^[\w\-\s_]+$` matched against all of `s` (as `Matcher.matches` and `String.matches`
      do): one class character followed by `[\w\-\s_]*`. */
  predicate MatchesNamePattern(s: string) {
    |s| > 0 && InNameClass(s[0]) && MatchesClassStar(s[1..])
  }

  /** The rule stated directly: a non-empty name drawn from the class. */
  ghost predicate OnlyNameChars(s: string) {
    |s| > 0 && forall i :: 0 <= i < |s| ==> InNameClass(s[i])
  }

  /** A name both checks accept. Every accepted character is ASCII, so the Java UTF-16 length
      of an accepted name equals `|s|`. */
  ghost predicate IsValidName(s: string) {
    OnlyNameChars(s) && |s| <= MaxNameLength
  }

  /** The starred class matches exactly the strings drawn from the class. */
  lemma {:induction false} ClassStarMeaning(s: string)
    ensures MatchesClassStar(s) <==> forall i :: 0 <= i < |s| ==> InNameClass(s[i])
    decreases |s|
  {
    if |s| > 0 {
      ClassStarMeaning(s[1..]);
      assert forall i :: 1 <= i < |s| ==> s[i] == s[1..][i - 1];
    }
  }

  /** The name pattern accepts a string iff it is non-empty and drawn from the class. */
  lemma {:induction false} NamePatternMeaning(s: string)
    ensures MatchesNamePattern(s) <==> OnlyNameChars(s)
  {
    if |s| > 0 {
      ClassStarMeaning(s[1..]);
      assert forall i :: 1 <= i < |s| ==> s[i] == s[1..][i - 1];
    }
  }

  /** A name with a space, a capital, a digit and a hyphen is accepted. */
  lemma NamePatternAcceptsExample()
    ensures MatchesNamePattern("Project A-1")
  {
    var ok := "Project A-1";
    assert ok[0] == 'P' && ok[7] == ' ' && ok[8] == 'A' && ok[9] == '-' && ok[10] == '1';
    assert forall i :: 0 <= i < |ok| ==> InNameClass(ok[i]);
    NamePatternMeaning(ok);
  }

  /** An empty name and names containing `!` are rejected. */
  lemma NamePatternRejectsExamples()
    ensures !MatchesNamePattern("")
    ensures !MatchesNamePattern("bad!name")
    ensures !MatchesNamePattern("!!!bad name!!!")
  {
    assert "bad!name"[3] == '!';
    NamePatternMeaning("bad!name");
  }
}
