/**
  Models of the functions of Go's `strings` package that the chat-command
  parser uses: `ToLower`, `HasPrefix`, `Split` (with a one-character
  separator) and `TrimSpace`. Strings are sequences of Unicode scalar values.
 */
module GoStrings {

  /** `unicode.IsSpace`: the Latin-1 spaces plus the other White_Space code points. */
  predicate IsSpace(c: char) {
    ('\t' <= c <= '\r') || c == ' ' || c == '\U{85}' || c == '\U{A0}'
    || c == '\U{1680}' || ('\U{2000}' <= c <= '\U{200A}')
    || c == '\U{2028}' || c == '\U{2029}' || c == '\U{202F}' || c == '\U{205F}'
    || c == '\U{3000}'
  }

  /**
    `unicode.ToLower` on the letters whose lower case is ASCII or belongs to
    the duration-unit alphabet: A-Z, U+0130 (capital I with dot), U+212A
    (Kelvin sign) and U+039C (capital mu). Every other character is kept.
   */
  function LowerChar(c: char): (l: char)
    ensures 'A' <= c <= 'Z' ==> l as int == c as int + 32
    ensures !('A' <= c <= 'Z') && c != '\U{130}' && c != '\U{212A}' && c != '\U{39C}' ==> l == c
  {
    if 'A' <= c <= 'Z' then (c as int + 32) as char
    else if c == '\U{130}' then 'i'
    else if c == '\U{212A}' then 'k'
    else if c == '\U{39C}' then '\U{3BC}'
    else c
  }

  /** `strings.ToLower`: lower-cases each character in place. */
  function ToLower(s: string): (r: string)
    ensures |r| == |s|
    ensures forall i :: 0 <= i < |s| ==> r[i] == LowerChar(s[i])
  {
    seq(|s|, i requires 0 <= i < |s| => LowerChar(s[i]))
  }

  /** Lower-casing a concatenation lower-cases each part. */
  lemma ToLowerAppend(a: string, b: string)
    ensures ToLower(a + b) == ToLower(a) + ToLower(b)
  {
    assert forall i :: 0 <= i < |a + b| ==> ToLower(a + b)[i] == (ToLower(a) + ToLower(b))[i];
  }

  /** `strings.HasPrefix`: `s` is at least as long as `prefix` and agrees with it character by character. */
  predicate HasPrefix(s: string, prefix: string)
    ensures HasPrefix(s, prefix) <==> |prefix| <= |s| && forall i :: 0 <= i < |prefix| ==> s[i] == prefix[i]
    ensures HasPrefix(s, prefix) ==> s == prefix + s[|prefix|..]
  {
    |prefix| <= |s| && s[..|prefix|] == prefix
  }

  /** Joins the parts with the separator between each neighbouring pair (`strings.Join`). */
  function Join(parts: seq<string>, sep: char): string {
    if |parts| == 0 then ""
    else if |parts| == 1 then parts[0]
    else parts[0] + [sep] + Join(parts[1..], sep)
  }

  /**
    `strings.Split(s, sep)` for a one-character separator: the pieces of `s`
    between the occurrences of `sep`; always one more piece than occurrences,
    so the empty string gives one empty piece.
   */
  function Split(s: string, sep: char): (parts: seq<string>)
    ensures |parts| >= 1
    ensures forall k :: 0 <= k < |parts| ==> sep !in parts[k]
    ensures Join(parts, sep) == s
  {
    if s == [] then [[]]
    else
      var rest := Split(s[1..], sep);
      if s[0] == sep then
        assert ([[]] + rest)[1..] == rest;
        [[]] + rest
      else
        var parts := [[s[0]] + rest[0]] + rest[1..];
        assert parts[1..] == rest[1..];
        assert s == [s[0]] + s[1..];
        parts
  }

  /** A string without the separator splits into itself alone. */
  lemma {:induction false} SplitNoSep(s: string, sep: char)
    requires sep !in s
    ensures Split(s, sep) == [s]
  {
    if s != [] {
      SplitNoSep(s[1..], sep);
    }
  }

  /** Splitting at a separator splits the two sides independently. */
  lemma {:induction false} SplitAt(a: string, b: string, sep: char)
    ensures Split(a + [sep] + b, sep) == Split(a, sep) + Split(b, sep)
  {
    if a == [] {
      assert a + [sep] + b == [sep] + b;
      assert ([sep] + b)[1..] == b;
    } else {
      assert (a + [sep] + b)[1..] == a[1..] + [sep] + b;
      SplitAt(a[1..], b, sep);
    }
  }

  /** Where the text kept by `TrimSpace` starts: after the leading spaces. */
  function TrimStart(s: string): (k: nat)
    ensures k <= |s|
    ensures forall i :: 0 <= i < k ==> IsSpace(s[i])
    ensures k < |s| ==> !IsSpace(s[k])
  {
    if s != [] && IsSpace(s[0]) then 1 + TrimStart(s[1..]) else 0
  }

  /** Where the text kept by `TrimSpace` ends: before the trailing spaces, but not before `lo`. */
  function TrimEnd(s: string, lo: nat): (k: nat)
    requires lo <= |s|
    ensures lo <= k <= |s|
    ensures forall i :: k <= i < |s| ==> IsSpace(s[i])
    ensures k > lo ==> !IsSpace(s[k - 1])
  {
    if |s| > lo && IsSpace(s[|s| - 1]) then TrimEnd(s[..|s| - 1], lo) else |s|
  }

  /**
    `strings.TrimSpace`: the leading spaces are removed, then the trailing
    spaces of what is left.
   */
  function TrimSpace(s: string): (r: string)
    ensures TrimStart(s) + |r| <= |s| && r == s[TrimStart(s)..TrimStart(s) + |r|]
    ensures r == [] || (!IsSpace(r[0]) && !IsSpace(r[|r| - 1]))
  {
    s[TrimStart(s)..TrimEnd(s, TrimStart(s))]
  }

  /** What `TrimSpace` removes is spaces only, on both sides. */
  lemma TrimSpaceRemovesSpaces(s: string)
    ensures forall i :: 0 <= i < TrimStart(s) ==> IsSpace(s[i])
    ensures forall i :: TrimStart(s) + |TrimSpace(s)| <= i < |s| ==> IsSpace(s[i])
  {
    assert TrimStart(s) + |TrimSpace(s)| == TrimEnd(s, TrimStart(s));
  }

  /** `TrimSpace` leaves nothing exactly when every character is a space. */
  lemma TrimSpaceBlank(s: string)
    ensures TrimSpace(s) == [] <==> forall i :: 0 <= i < |s| ==> IsSpace(s[i])
  {
    TrimSpaceRemovesSpaces(s);
    if TrimSpace(s) != [] {
      assert !IsSpace(s[TrimStart(s)]);
    }
  }

  /** A string already free of leading and trailing spaces is its own trim. */
  lemma TrimSpaceUnchanged(s: string)
    requires s == [] || (!IsSpace(s[0]) && !IsSpace(s[|s| - 1]))
    ensures TrimSpace(s) == s
  {
  }
}
