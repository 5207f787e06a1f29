/** String primitives the chatbot's intent resolver is built from:
    JavaScript's `includes` (substring containment), `toLowerCase`
    and `trim`, over `string` = `seq<char>`. */
module Text {

  /** w occurs in s starting at index i. */
  predicate OccursAt(s: string, w: string, i: int) {
    0 <= i && i + |w| <= |s| && s[i..i + |w|] == w
  }

  /** `s.includes(w)`: w occurs in s at some position. */
  predicate Contains(s: string, w: string) {
    exists i :: 0 <= i <= |s| - |w| && OccursAt(s, w, i)
  }

  /** Containment is transitive: whatever occurs inside a keyword occurs in
      every text that contains the keyword. This is what makes a short
      keyword of an earlier rule shadow a longer keyword of a later one. */
  lemma ContainsTransitive(s: string, m: string, w: string)
    requires Contains(s, m) && Contains(m, w)
    ensures Contains(s, w)
  {
    var i :| 0 <= i <= |s| - |m| && OccursAt(s, m, i);
    var j :| 0 <= j <= |m| - |w| && OccursAt(m, w, j);
    var inS, inM := s[i + j..i + j + |w|], m[j..j + |w|];
    forall k | 0 <= k < |w| ensures inS[k] == inM[k] {
      assert s[i + j + k] == s[i..i + |m|][j + k];
    }
    assert inS == inM;
    assert OccursAt(s, w, i + j);
  }

  /** Containment survives putting text around the string. */
  lemma ContainsInContext(pre: string, w: string, post: string)
    ensures Contains(pre + w + post, w)
  {
    assert (pre + w + post)[|pre|..|pre| + |w|] == w;
    assert OccursAt(pre + w + post, w, |pre|);
  }

  /** A word with a character the text lacks does not occur in it. */
  lemma AbsentChar(s: string, w: string, k: nat)
    requires k < |w| && w[k] !in s
    ensures !Contains(s, w)
  {
  }

  // ---------------------------------------------------------------------
  // Lowercasing

  /** `toLowerCase` on one character, for the letters Vietnamese text is
      written with: ASCII A-Z, the Latin-1 capitals, Ă Đ Ĩ Ũ Ơ Ư and the
      precomposed letters with tone marks in U+1EA0..U+1EF9, where each
      capital sits at an even code point and its small letter right after. */
  function LowerChar(c: char): (d: char)
    ensures d == c || (c as int) < (d as int)
  {
    if 'A' <= c <= 'Z' then (c as int + 32) as char
    else if '\U{00C0}' <= c <= '\U{00DE}' && c != '\U{00D7}' then (c as int + 32) as char
    else if c == '\U{0102}' || c == '\U{0110}' || c == '\U{0128}' || c == '\U{0168}' ||
            c == '\U{01A0}'
    then (c as int + 1) as char
    else if c == '\U{01AF}' then '\U{01B0}'
    else if '\U{1EA0}' <= c <= '\U{1EF9}' && (c as int) % 2 == 0 then (c as int + 1) as char
    else c
  }

  /** `toLowerCase` on a whole string: character by character. */
  function Lower(s: string): (r: string)
    ensures |r| == |s|
    ensures forall i :: 0 <= i < |s| ==> r[i] == LowerChar(s[i])
  {
    seq(|s|, i requires 0 <= i < |s| => LowerChar(s[i]))
  }

  /** Lowering an already lowered character changes nothing. */
  lemma LowerCharIdempotent(c: char)
    ensures LowerChar(LowerChar(c)) == LowerChar(c)
  {
  }

  /** Lowercasing is idempotent, so a lowered keyword list is its own
      normal form. */
  lemma LowerIdempotent(s: string)
    ensures Lower(Lower(s)) == Lower(s)
  {
    forall i | 0 <= i < |s| ensures Lower(Lower(s))[i] == Lower(s)[i] {
      LowerCharIdempotent(s[i]);
    }
  }

  /** An occurrence of w in s is an occurrence of the lowered w in the
      lowered s: a message typed with capitals still hits a keyword. */
  lemma LowerPreservesContains(s: string, w: string)
    requires Contains(s, w)
    ensures Contains(Lower(s), Lower(w))
  {
    var i :| 0 <= i <= |s| - |w| && OccursAt(s, w, i);
    assert Lower(s)[i..i + |w|] == Lower(w);
    assert OccursAt(Lower(s), Lower(w), i);
  }

  // ---------------------------------------------------------------------
  // trim()

  /** The characters `String.prototype.trim` removes: ECMAScript WhiteSpace
      (tab, vertical tab, form feed, space, no-break space, the byte order
      mark and the other space separators) and LineTerminator. */
  predicate IsJsWhitespace(c: char) {
    c == '\t' || c == '\n' || c == '\U{000B}' || c == '\U{000C}' || c == '\r' ||
    c == ' ' || c == '\U{00A0}' || c == '\U{1680}' ||
    ('\U{2000}' <= c <= '\U{200A}') ||
    c == '\U{2028}' || c == '\U{2029}' || c == '\U{202F}' || c == '\U{205F}' ||
    c == '\U{3000}' || c == '\U{FEFF}'
  }

  function TrimStart(s: string): (r: string)
    ensures |r| <= |s| && r == s[|s| - |r|..]
    ensures r == [] || !IsJsWhitespace(r[0])
    ensures IsBlank(s[..|s| - |r|])
  {
    if s != [] && IsJsWhitespace(s[0]) then TrimStart(s[1..]) else s
  }

  function TrimEnd(s: string): (r: string)
    ensures |r| <= |s| && r == s[..|r|]
    ensures r == [] || !IsJsWhitespace(r[|r| - 1])
    ensures IsBlank(s[|r|..])
  {
    if s != [] && IsJsWhitespace(s[|s| - 1]) then TrimEnd(s[..|s| - 1]) else s
  }

  /** `s.trim()`: leading and trailing whitespace removed. */
  function Trim(s: string): (r: string)
  {
    TrimEnd(TrimStart(s))
  }

  /** Every character of s is whitespace. */
  predicate IsBlank(s: string) {
    forall i :: 0 <= i < |s| ==> IsJsWhitespace(s[i])
  }

  /** Removing a whitespace character from either end keeps a string
      blank or not blank. */
  lemma BlankWithoutEnds(s: string)
    requires s != []
    ensures IsJsWhitespace(s[0]) ==> (IsBlank(s) <==> IsBlank(s[1..]))
    ensures IsJsWhitespace(s[|s| - 1]) ==> (IsBlank(s) <==> IsBlank(s[..|s| - 1]))
  {
    forall i | 0 < i < |s| ensures s[1..][i - 1] == s[i] { }
    forall i | 0 <= i < |s| - 1 ensures s[..|s| - 1][i] == s[i] { }
  }

  lemma {:induction false} TrimStartBlank(s: string)
    ensures TrimStart(s) == [] <==> IsBlank(s)
  {
    if s != [] && IsJsWhitespace(s[0]) {
      TrimStartBlank(s[1..]);
      BlankWithoutEnds(s);
    }
  }

  lemma {:induction false} TrimEndBlank(s: string)
    ensures TrimEnd(s) == [] <==> IsBlank(s)
  {
    if s != [] && IsJsWhitespace(s[|s| - 1]) {
      TrimEndBlank(s[..|s| - 1]);
      BlankWithoutEnds(s);
    }
  }

  /** `!s.trim()` holds exactly when s consists of whitespace only
      (the empty string included). */
  lemma TrimEmptyIffBlank(s: string)
    ensures Trim(s) == [] <==> IsBlank(s)
  {
    TrimStartBlank(s);
    TrimEndBlank(TrimStart(s));
  }
}
