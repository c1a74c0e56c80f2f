/** The client-side email pattern `^[^\s@]+@[^\s@]+\.[^\s@]+$` used by the
    login and registration forms. `Matches` decides it by looking for the
    `@` and a dot inside the domain; `Pattern` states what the regular
    expression means, and `MatchesIff` shows the two agree. */
module EmailPattern {
  import opened Common
  import opened Text

  /** `[^\s@]`: neither white space nor `@`. */
  predicate PlainChar(c: char) {
    !IsWs(c) && c != '@'
  }

  /** `[^\s@]+`: a non-empty run of plain characters. */
  predicate Segment(x: string) {
    |x| > 0 && forall i :: 0 <= i < |x| ==> PlainChar(x[i])
  }

  /** The regular expression: a local part, `@`, a domain part, a literal
      dot and a last part, each part non-empty and free of white space and
      `@`. Backtracking lets the domain part itself hold dots. */
  ghost predicate Pattern(s: string) {
    exists a: string, b: string, c: string ::
      Segment(a) && Segment(b) && Segment(c) && s == a + "@" + b + "." + c
  }

  predicate NoWs(s: string) {
    forall i :: 0 <= i < |s| ==> !IsWs(s[i])
  }

  /** The index of the first occurrence of `c` in `s`. */
  function IndexOf(s: string, c: char): (r: Option<nat>)
    ensures r.None? <==> c !in s
    ensures r.Some? ==> r.value < |s| && s[r.value] == c && c !in s[..r.value]
  {
    if s == [] then None
    else if s[0] == c then Some(0)
    else
      match IndexOf(s[1..], c)
      case None => None
      case Some(i) =>
        assert s[..i + 1] == [s[0]] + s[1..][..i];
        Some(i + 1)
  }

  /** `regex.test(s)`: no white space anywhere, a first `@` after at least
      one character and no other `@`, and a dot in the domain with a
      character on each side of it. */
  predicate Matches(s: string) {
    NoWs(s) &&
    match IndexOf(s, '@')
    case None => false
    case Some(i) =>
      var d := s[i + 1..];
      i > 0 && '@' !in d && |d| >= 3 && '.' in d[1..|d| - 1]
  }

  lemma SegmentsJoin(a: string, b: string, c: string)
    requires Segment(a) && Segment(b) && Segment(c)
    ensures var s := a + "@" + b + "." + c;
      && NoWs(s)
      && IndexOf(s, '@') == Some(|a|)
      && s[|a| + 1..] == b + "." + c
  {
    var s := a + "@" + b + "." + c;
    forall i | 0 <= i < |s| ensures !IsWs(s[i]) {
      if i < |a| {
        assert s[i] == a[i];
      } else if i == |a| {
        assert s[i] == '@';
      } else if i < |a| + 1 + |b| {
        assert s[i] == b[i - |a| - 1];
      } else if i == |a| + 1 + |b| {
        assert s[i] == '.';
      } else {
        assert s[i] == c[i - |a| - 2 - |b|];
      }
    }
    assert s[..|a|] == a;
    assert forall i :: 0 <= i < |a| ==> a[i] != '@';
    assert s[|a|] == '@';
  }

  /** A string the matcher accepts splits into the three parts. */
  lemma MatchesSplits(s: string) returns (a: string, b: string, c: string)
    requires Matches(s)
    ensures Segment(a) && Segment(b) && Segment(c) && s == a + "@" + b + "." + c
  {
    var i := IndexOf(s, '@').value;
    var d := s[i + 1..];
    var k :| 0 <= k < |d[1..|d| - 1]| && d[1..|d| - 1][k] == '.';
    a, b, c := s[..i], d[..k + 1], d[k + 2..];
    assert d == b + "." + c;
    assert s == a + "@" + d;
    forall j | 0 <= j < |a| ensures PlainChar(a[j]) {
      assert a[j] == s[j];
    }
    forall j | 0 <= j < |b| ensures PlainChar(b[j]) {
      assert b[j] == d[j] == s[i + 1 + j];
    }
    forall j | 0 <= j < |c| ensures PlainChar(c[j]) {
      assert c[j] == d[k + 2 + j] == s[i + 1 + k + 2 + j];
    }
  }

  /** Three parts joined as the pattern says are accepted by the matcher. */
  lemma JoinedMatches(a: string, b: string, c: string)
    requires Segment(a) && Segment(b) && Segment(c)
    ensures Matches(a + "@" + b + "." + c)
  {
    var s := a + "@" + b + "." + c;
    SegmentsJoin(a, b, c);
    var d := s[|a| + 1..];
    assert d[|b|] == '.';
    assert d[1..|d| - 1][|b| - 1] == '.';
    forall j | 0 <= j < |d| ensures d[j] != '@' {
      if j < |b| {
        assert d[j] == b[j];
      } else if j > |b| {
        assert d[j] == c[j - |b| - 1];
      }
    }
  }

  /** The matcher decides the regular expression. */
  lemma MatchesIff(s: string)
    ensures Matches(s) <==> Pattern(s)
  {
    if Matches(s) {
      var a, b, c := MatchesSplits(s);
    }
    if Pattern(s) {
      var a: string, b: string, c: string :|
        Segment(a) && Segment(b) && Segment(c) && s == a + "@" + b + "." + c;
      JoinedMatches(a, b, c);
    }
  }

  /** A matching address has no white space at either end: trimming it
      changes nothing, and it is not blank. */
  lemma MatchedIsTrimmed(s: string)
    requires Matches(s)
    ensures Trim(s) == s && Trim(s) != ""
  {
  }

  /** White space around an address is not trimmed before the test, so a
      padded address never matches. */
  lemma PaddedNeverMatches(s: string)
    requires Trim(s) != s
    ensures !Matches(s)
  {
    if Matches(s) {
      MatchedIsTrimmed(s);
    }
  }
}
