/** String operations of the JavaScript runtime that the core relies on:
    the `\s` character class, `String.prototype.trim` and
    `String.prototype.replace` with a string pattern (first occurrence only). */
module Text {
  import opened Common

  /** The characters matched by `\s` in a JavaScript regular expression;
      `trim` strips exactly these (white space and line terminators). */
  predicate IsWs(c: char) {
    || c == ' ' || c == '\t' || c == '\n' || c == '\r'
    || c == '\U{000B}' || c == '\U{000C}' || c == '\U{00A0}' || c == '\U{1680}'
    || ('\U{2000}' <= c <= '\U{200A}')
    || c == '\U{2028}' || c == '\U{2029}' || c == '\U{202F}' || c == '\U{205F}'
    || c == '\U{3000}' || c == '\U{FEFF}'
  }

  predicate AllWs(s: string) {
    forall i :: 0 <= i < |s| ==> IsWs(s[i])
  }

  /** Drops leading white space: the result is the suffix of `s` that
      starts at its first non-white-space character. */
  function TrimStart(s: string): (r: string)
    ensures |r| <= |s| && r == s[|s| - |r|..]
    ensures r == [] || !IsWs(r[0])
    ensures AllWs(s[..|s| - |r|])
  {
    if s != [] && IsWs(s[0]) then
      var p := s[1..];
      var r := TrimStart(p);
      var w := s[..|s| - |r|];
      assert AllWs(w) by {
        forall i | 0 <= i < |w| ensures IsWs(w[i]) {
          if i > 0 {
            assert w[i] == p[..|p| - |r|][i - 1];
          }
        }
      }
      r
    else s
  }

  /** Drops trailing white space: the result is the prefix of `s` that
      ends at its last non-white-space character. */
  function TrimEnd(s: string): (r: string)
    ensures |r| <= |s| && r == s[..|r|]
    ensures r == [] || !IsWs(r[|r| - 1])
    ensures AllWs(s[|r|..])
  {
    if s != [] && IsWs(s[|s| - 1]) then
      var p := s[..|s| - 1];
      var r := TrimEnd(p);
      assert AllWs(s[|r|..]) by {
        forall i | 0 <= i < |s| - |r| ensures IsWs(s[|r|..][i]) {
          if i < |p| - |r| {
            assert s[|r|..][i] == p[|r|..][i];
          }
        }
      }
      r
    else s
  }

  /** How many leading characters `s.trim()` drops. */
  function TrimOffset(s: string): (k: nat)
    ensures k <= |s|
  {
    |s| - |TrimStart(s)|
  }

  /** `s.trim()`: the result is the slice of `s` that starts at
      `TrimOffset(s)`, and it neither starts nor ends with white space. */
  function Trim(s: string): (r: string)
    ensures TrimOffset(s) + |r| <= |s| && r == s[TrimOffset(s)..TrimOffset(s) + |r|]
    ensures r == [] || (!IsWs(r[0]) && !IsWs(r[|r| - 1]))
  {
    var t := TrimStart(s);
    var r := TrimEnd(t);
    SliceOfSlice(s, t, r);
    r
  }

  /** Everything `trim` cuts away, on either side, is white space. */
  lemma TrimCutsOnlyWhiteSpace(s: string)
    ensures AllWs(s[..TrimOffset(s)]) && AllWs(s[TrimOffset(s) + |Trim(s)|..])
  {
    SliceOfSlice(s, TrimStart(s), TrimEnd(TrimStart(s)));
  }

  /** Cutting white space off the front and then off the back leaves a
      slice of the original whose surroundings are white space. */
  lemma SliceOfSlice(s: string, t: string, r: string)
    requires |t| <= |s| && t == s[|s| - |t|..] && AllWs(s[..|s| - |t|])
    requires |r| <= |t| && r == t[..|r|] && AllWs(t[|r|..])
    ensures r == s[|s| - |t|..|s| - |t| + |r|]
    ensures AllWs(s[|s| - |t| + |r|..])
  {
    assert s[|s| - |t| + |r|..] == t[|r|..];
  }

  /** `!s.trim()`: the string is empty once trimmed exactly when every
      character of it is white space. */
  lemma TrimEmptyIffAllWs(s: string)
    ensures Trim(s) == [] <==> AllWs(s)
  {
    var t := TrimStart(s);
    if Trim(s) == [] {
      assert AllWs(t[0..]);
      assert s == s[..|s| - |t|] + t;
    } else {
      var r := Trim(s);
      assert r[0] == t[0];
      assert !IsWs(s[|s| - |t|]);
    }
  }

  /** The trimmed string has no white space at either end, and trimming
      it again changes nothing. */
  lemma TrimIdempotent(s: string)
    ensures var r := Trim(s); r == [] || (!IsWs(r[0]) && !IsWs(r[|r| - 1]))
    ensures Trim(Trim(s)) == Trim(s)
  {
    var t := TrimStart(s);
    var r := TrimEnd(t);
    if r != [] {
      assert r[0] == t[0];
    }
  }

  /** True when `pat` occurs in `s` at index `i`. */
  predicate OccursAt(s: string, pat: string, i: nat) {
    i + |pat| <= |s| && s[i..i + |pat|] == pat
  }

  /** The first index at or after `from` where `pat` occurs, if any. */
  function FindFrom(s: string, pat: string, from: nat): (r: Option<nat>)
    requires from <= |s|
    ensures r.Some? ==> from <= r.value && OccursAt(s, pat, r.value)
    ensures r.Some? ==> forall j :: from <= j < r.value ==> !OccursAt(s, pat, j)
    ensures r.None? ==> forall j :: from <= j <= |s| ==> !OccursAt(s, pat, j)
    decreases |s| - from
  {
    if OccursAt(s, pat, from) then Some(from)
    else if from == |s| then None
    else FindFrom(s, pat, from + 1)
  }

  /** `s.replace(pat, '')` with a string pattern: the first occurrence of
      `pat`, wherever it is, is cut out; later occurrences stay; a string
      without `pat` is unchanged. */
  function RemoveFirst(s: string, pat: string): (r: string)
    ensures (forall j :: 0 <= j <= |s| ==> !OccursAt(s, pat, j)) ==> r == s
    ensures forall i :: 0 <= i <= |s| && OccursAt(s, pat, i) && (forall j :: 0 <= j < i ==> !OccursAt(s, pat, j))
                        ==> r == s[..i] + s[i + |pat|..]
  {
    match FindFrom(s, pat, 0)
    case None => s
    case Some(i) => s[..i] + s[i + |pat|..]
  }

  /** Removing the first occurrence of a prefix is stripping that prefix. */
  lemma RemoveFirstOfPrefix(s: string, pat: string)
    requires |pat| <= |s| && s[..|pat|] == pat
    ensures RemoveFirst(s, pat) == s[|pat|..]
  {
    assert OccursAt(s, pat, 0);
  }

  /** A string in which `pat` does not occur is left as it is. */
  lemma RemoveFirstAbsent(s: string, pat: string)
    requires forall j :: 0 <= j <= |s| ==> !OccursAt(s, pat, j)
    ensures RemoveFirst(s, pat) == s
  {
    if OccursAt(s, pat, 0) { assert false; }
  }

  /** The result is shorter by exactly `|pat|` when `pat` occurs, and
      otherwise equals `s`: one occurrence at most is removed. */
  lemma RemoveFirstLength(s: string, pat: string)
    ensures RemoveFirst(s, pat) == s || |RemoveFirst(s, pat)| == |s| - |pat|
    ensures (exists j :: 0 <= j <= |s| && OccursAt(s, pat, j)) ==> |RemoveFirst(s, pat)| == |s| - |pat|
    ensures forall i :: FindFrom(s, pat, 0) == Some(i) ==> RemoveFirst(s, pat) == s[..i] + s[i + |pat|..]
  {
  }

  /** A character outside the Basic Multilingual Plane, which a JavaScript
      string stores as a surrogate pair of two UTF-16 code units. */
  predicate Astral(c: char) {
    c as int > 0xFFFF
  }

  /** `s.length` in JavaScript: the number of UTF-16 code units, so each
      astral character counts twice. */
  function JsLength(s: string): (n: nat)
    ensures |s| <= n <= 2 * |s|
    ensures n == |s| <==> forall i :: 0 <= i < |s| ==> !Astral(s[i])
  {
    if s == [] then 0
    else
      var rest := JsLength(s[1..]);
      assert (forall i :: 0 <= i < |s| ==> !Astral(s[i])) <==>
             !Astral(s[0]) && forall i :: 0 <= i < |s[1..]| ==> !Astral(s[1..][i]) by {
        if forall i :: 0 <= i < |s[1..]| ==> !Astral(s[1..][i]) {
          forall i | 1 <= i < |s| ensures !Astral(s[i]) {
            assert s[i] == s[1..][i - 1];
          }
        }
      }
      (if Astral(s[0]) then 2 else 1) + rest
  }
}
