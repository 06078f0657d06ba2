/**
 * String helpers used across the services: ASCII case mapping (the model of
 * JavaScript's toUpperCase/toLowerCase), trimming, substring search and
 * last-index search.
 */
module Text {

  function UpperChar(c: char): (u: char)
  {
    if 'a' <= c <= 'z' then (c as int - 32) as char else c
  }

  function LowerChar(c: char): (l: char)
  {
    if 'A' <= c <= 'Z' then (c as int + 32) as char else c
  }

  /** String.prototype.toUpperCase, restricted to the ASCII letters. */
  function ToUpper(s: string): (r: string)
    ensures |r| == |s|
    ensures forall i :: 0 <= i < |s| ==> r[i] == UpperChar(s[i])
  {
    seq(|s|, i requires 0 <= i < |s| => UpperChar(s[i]))
  }

  /** String.prototype.toLowerCase, restricted to the ASCII letters. */
  function ToLower(s: string): (r: string)
    ensures |r| == |s|
    ensures forall i :: 0 <= i < |s| ==> r[i] == LowerChar(s[i])
  {
    seq(|s|, i requires 0 <= i < |s| => LowerChar(s[i]))
  }

  lemma {:induction false} ToUpperIdempotent(s: string)
    ensures ToUpper(ToUpper(s)) == ToUpper(s)
  {
  }

  /**
   * The characters JavaScript's regular-expression class for white space and
   * trim treat as white space: the ECMAScript WhiteSpace characters (tab,
   * vertical tab, form feed, space, no-break space, the byte-order mark and
   * the Unicode space separators) and the LineTerminator characters (line
   * feed, carriage return, line and paragraph separator).
   */
  predicate IsWhitespace(c: char)
  {
    c == ' ' || c == '\t' || c == '\n' || c == '\r' || c as int == 0x0B || c as int == 0x0C
    || c as int == 0xA0 || c as int == 0x1680 || (0x2000 <= c as int <= 0x200A)
    || c as int == 0x2028 || c as int == 0x2029 || c as int == 0x202F || c as int == 0x205F
    || c as int == 0x3000 || c as int == 0xFEFF
  }

  function TrimStart(s: string): (r: string)
    ensures |r| <= |s|
    ensures r == s[|s| - |r|..]
    ensures r == [] || !IsWhitespace(r[0])
  {
    if |s| > 0 && IsWhitespace(s[0]) then TrimStart(s[1..]) else s
  }

  function TrimEnd(s: string): (r: string)
    ensures |r| <= |s|
    ensures r == s[..|r|]
    ensures r == [] || !IsWhitespace(r[|r| - 1])
  {
    if |s| > 0 && IsWhitespace(s[|s| - 1]) then TrimEnd(s[..|s| - 1]) else s
  }

  /** String.prototype.trim: white space removed from both ends. */
  function Trim(s: string): (r: string)
    ensures |r| <= |s|
    ensures r == [] || (!IsWhitespace(r[0]) && !IsWhitespace(r[|r| - 1]))
  {
    TrimEnd(TrimStart(s))
  }

  predicate StartsWith(s: string, prefix: string)
  {
    |prefix| <= |s| && s[..|prefix|] == prefix
  }

  /** String.prototype.includes. */
  predicate Contains(s: string, sub: string)
    decreases |s|
  {
    StartsWith(s, sub) || (|s| > 0 && Contains(s[1..], sub))
  }

  /**
   * String.prototype.lastIndexOf for a single character: the index of the
   * last occurrence of c, or -1 when there is none.
   */
  function LastIndexOf(s: string, c: char): (r: int)
    ensures -1 <= r < |s|
    ensures r >= 0 ==> s[r] == c
    ensures forall j :: r < j < |s| ==> s[j] != c
  {
    if |s| == 0 then -1
    else if s[|s| - 1] == c then |s| - 1
    else LastIndexOf(s[..|s| - 1], c)
  }

  /**
   * String.prototype.substring with a single start argument: a negative
   * start counts as 0 and a start past the end gives the empty string.
   */
  function SubstringFrom(s: string, start: int): (r: string)
    ensures start <= 0 ==> r == s
    ensures 0 <= start <= |s| ==> r == s[start..]
    ensures start >= |s| ==> r == []
  {
    if start <= 0 then s else if start >= |s| then [] else s[start..]
  }

  /** A match that does not begin with white space survives trimming the front. */
  lemma {:induction false} ContainsTrimStart(s: string, sub: string)
    requires |sub| > 0 && !IsWhitespace(sub[0])
    ensures Contains(TrimStart(s), sub) <==> Contains(s, sub)
    decreases |s|
  {
    if |s| > 0 && IsWhitespace(s[0]) {
      assert !StartsWith(s, sub) by {
        if |sub| <= |s| {
          assert s[..|sub|][0] == s[0];
        }
      }
      ContainsTrimStart(s[1..], sub);
    }
  }

  /** Dropping a trailing white-space character loses no match that ends in a non-white character. */
  lemma {:induction false} ContainsDropLast(s: string, sub: string)
    requires |s| > 0 && IsWhitespace(s[|s| - 1])
    requires |sub| > 0 && !IsWhitespace(sub[|sub| - 1])
    ensures Contains(s[..|s| - 1], sub) <==> Contains(s, sub)
    decreases |s|
  {
    var p := s[..|s| - 1];
    assert StartsWith(p, sub) <==> StartsWith(s, sub) by {
      if |sub| <= |p| {
        assert s[..|sub|] == p[..|sub|];
      } else if |sub| == |s| {
        assert s[..|sub|][|s| - 1] == s[|s| - 1];
      }
    }
    if |s| > 1 {
      assert p[1..] == s[1..][..|s[1..]| - 1];
      ContainsDropLast(s[1..], sub);
    } else {
      assert !Contains(s[1..], sub) by {
        assert s[1..] == [];
      }
    }
  }

  lemma {:induction false} ContainsTrimEnd(s: string, sub: string)
    requires |sub| > 0 && !IsWhitespace(sub[|sub| - 1])
    ensures Contains(TrimEnd(s), sub) <==> Contains(s, sub)
    decreases |s|
  {
    if |s| > 0 && IsWhitespace(s[|s| - 1]) {
      ContainsDropLast(s, sub);
      ContainsTrimEnd(s[..|s| - 1], sub);
    }
  }

  /** Searching the trimmed text finds exactly what searching the text finds, for a word without surrounding white space. */
  lemma {:induction false} ContainsTrim(s: string, sub: string)
    requires |sub| > 0 && !IsWhitespace(sub[0]) && !IsWhitespace(sub[|sub| - 1])
    ensures Contains(Trim(s), sub) <==> Contains(s, sub)
  {
    ContainsTrimStart(s, sub);
    ContainsTrimEnd(TrimStart(s), sub);
  }

  /** Nothing is found in a text shorter than the word searched for. */
  lemma {:induction false} ShortTextContainsNothing(s: string, sub: string)
    requires |s| < |sub|
    ensures !Contains(s, sub)
    decreases |s|
  {
    if |s| > 0 {
      ShortTextContainsNothing(s[1..], sub);
    }
  }

  /** A word with a character the text lacks is not found in it. */
  lemma {:induction false} MissingCharNotContained(s: string, sub: string, k: nat)
    requires k < |sub| && sub[k] !in s
    ensures !Contains(s, sub)
    decreases |s|
  {
    if |sub| <= |s| {
      assert s[k] in s;
      assert s[..|sub|][k] == s[k];
    }
    if |s| > 0 {
      assert forall c :: c in s[1..] ==> c in s;
      MissingCharNotContained(s[1..], sub, k);
    }
  }

  lemma {:induction false} UpperOfLower(s: string)
    ensures ToUpper(ToLower(s)) == ToUpper(s)
  {
  }
}
