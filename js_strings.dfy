/** `String.prototype.trim`, which every form on both screens applies to its
    text fields before deciding whether they are empty. */
module JsStrings {

  /** The characters `trim` removes: the ECMAScript WhiteSpace set (tab,
      vertical tab, form feed, space, no-break space, the byte-order mark and
      every space separator) and the LineTerminator set. */
  predicate IsWhitespace(c: char)
  {
    c == '\t' || c == '\n' || c == '\U{000B}' || c == '\U{000C}' || c == '\r' ||
    c == ' ' || c == '\U{00A0}' || c == '\U{1680}' ||
    ('\U{2000}' <= c <= '\U{200A}') ||
    c == '\U{2028}' || c == '\U{2029}' || c == '\U{202F}' || c == '\U{205F}' ||
    c == '\U{3000}' || c == '\U{FEFF}'
  }

  predicate AllWhitespace(s: string)
  {
    forall i :: 0 <= i < |s| ==> IsWhitespace(s[i])
  }

  /** Drops the leading whitespace: the result is the suffix of `s` that starts
      at its first non-whitespace character. */
  function TrimStart(s: string): (r: string)
    ensures |r| <= |s| && r == s[|s| - |r|..]
    ensures AllWhitespace(s[..|s| - |r|])
    ensures r != [] ==> !IsWhitespace(r[0])
    decreases |s|
  {
    if s != [] && IsWhitespace(s[0]) then TrimStart(s[1..]) else s
  }

  /** Drops the trailing whitespace: the result is the prefix of `s` that ends
      at its last non-whitespace character. */
  function TrimEnd(s: string): (r: string)
    ensures |r| <= |s| && r == s[..|r|]
    ensures AllWhitespace(s[|r|..])
    ensures r != [] ==> !IsWhitespace(r[|r| - 1])
    decreases |s|
  {
    if s != [] && IsWhitespace(s[|s| - 1]) then
      var r := TrimEnd(s[..|s| - 1]);
      assert s[|r|..] == s[..|s| - 1][|r|..] + [s[|s| - 1]];
      r
    else s
  }

  /** `s.trim()`: drops the leading whitespace, then the trailing whitespace
      (TrimIsTrimEndOfTrimStart). It is empty exactly when `s` holds whitespace
      only, so that `!s.trim()` is the "nothing entered" test of the forms. */
  function Trim(s: string): (r: string)
    ensures |r| <= |s|
    ensures r == [] <==> AllWhitespace(s)
    ensures r != [] ==> !IsWhitespace(r[0]) && !IsWhitespace(r[|r| - 1])
    decreases |s|
  {
    if s != [] && IsWhitespace(s[0]) then
      var r := Trim(s[1..]);
      assert AllWhitespace(s[1..]) ==> AllWhitespace(s) by {
        if AllWhitespace(s[1..]) {
          assert s == [s[0]] + s[1..];
        }
      }
      r
    else
      var r := TrimEnd(s);
      assert r == [] ==> s[|r|..] == s;
      assert r != [] ==> r[0] == s[0];
      r
  }

  lemma {:induction false} TrimEndSkips(x: string, w: string)
    requires AllWhitespace(w)
    requires x == [] || !IsWhitespace(x[|x| - 1])
    ensures TrimEnd(x + w) == x
    decreases |w|
  {
    if w != [] {
      assert (x + w)[..|x + w| - 1] == x + w[..|w| - 1];
      TrimEndSkips(x, w[..|w| - 1]);
    } else {
      assert x + w == x;
    }
  }

  /** `trim` is `trimStart` followed by `trimEnd`. */
  lemma {:induction false} TrimIsTrimEndOfTrimStart(s: string)
    ensures Trim(s) == TrimEnd(TrimStart(s))
    decreases |s|
  {
    if s != [] && IsWhitespace(s[0]) {
      TrimIsTrimEndOfTrimStart(s[1..]);
    }
  }

  /** `trim` removes exactly the whitespace around the text: for any text `x`
      that neither starts nor ends with whitespace, padding it with whitespace
      on both sides and trimming gives `x` back. */
  lemma {:induction false} TrimRemovesPadding(before: string, x: string, after: string)
    requires AllWhitespace(before) && AllWhitespace(after)
    requires x == [] || (!IsWhitespace(x[0]) && !IsWhitespace(x[|x| - 1]))
    ensures Trim(before + x + after) == x
    decreases |before| + |after|
  {
    if before != [] {
      assert (before + x + after)[1..] == before[1..] + x + after;
      TrimRemovesPadding(before[1..], x, after);
    } else if x != [] {
      assert before + x + after == x + after;
      TrimEndSkips(x, after);
    } else if after != [] {
      assert before + x + after == after;
      assert after[1..] == [] + [] + after[1..];
      TrimRemovesPadding([], [], after[1..]);
    } else {
      assert before + x + after == [];
    }
  }

  /** Trimming twice is trimming once. */
  lemma TrimIdempotent(s: string)
    ensures Trim(Trim(s)) == Trim(s)
  {
    var r := Trim(s);
    var none: string := [];
    TrimRemovesPadding(none, r, none);
    assert none + r + none == r;
  }
}
