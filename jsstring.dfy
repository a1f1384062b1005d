/** The few JavaScript string operations the adapter relies on:
    `toLowerCase`, `includes`, `trim` and `length`. Strings are sequences of
    Unicode scalar values. */
module JsString {

  import opened Wrappers

  /** JavaScript truthiness of an optional string: present and not empty.
      An absent string and the empty string are the only falsy values. */
  predicate IsTruthy(o: Option<string>): (b: bool)
    ensures !b <==> o == None || o == Some("")
  {
    o.Some? && o.value != ""
  }

  /** `toLowerCase` for one character, as far as it can matter for matching
      ASCII text: A-Z become a-z, KELVIN SIGN becomes 'k', and LATIN CAPITAL
      LETTER I WITH DOT ABOVE becomes 'i' followed by COMBINING DOT ABOVE.
      These are the only lower-case mappings whose result holds an ASCII
      character; every other character is left as it is. */
  function LowerChar(c: char): (r: string)
    ensures |r| >= 1
    ensures forall k :: 0 <= k < |r| ==> !('A' <= r[k] <= 'Z')
  {
    if 'A' <= c <= 'Z' then [(c as int + 32) as char]
    else if c == '\U{212A}' then "k"
    else if c == '\U{0130}' then "i\U{0307}"
    else [c]
  }

  /** `toLowerCase`, character by character: the result is at least as
      long and holds no upper-case ASCII letter. */
  function Lower(s: string): (r: string)
    ensures |r| >= |s|
    ensures forall k :: 0 <= k < |r| ==> !('A' <= r[k] <= 'Z')
  {
    if s == [] then [] else LowerChar(s[0]) + Lower(s[1..])
  }

  /** A character that `toLowerCase` leaves alone. */
  predicate IsLowerFixed(c: char) {
    !('A' <= c <= 'Z') && c != '\U{212A}' && c != '\U{0130}'
  }

  /** `s.includes(needle)`: the needle occurs as a contiguous run of `s`.
      The empty needle occurs in every string, and a needle longer than `s`
      in none. */
  predicate Contains(s: string, needle: string): (b: bool)
    ensures needle == [] ==> b
    ensures b ==> |needle| <= |s|
  {
    assert needle == [] ==> OccursAt(s, needle, 0) by {
      if needle == [] { assert s[0..0] == needle; }
    }
    exists i :: 0 <= i <= |s| - |needle| && OccursAt(s, needle, i)
  }

  /** The needle occurs in `s` starting at index `i`. */
  predicate OccursAt(s: string, needle: string, i: int) {
    0 <= i <= |s| - |needle| && s[i..i + |needle|] == needle
  }

  lemma {:induction false} LowerAppend(a: string, b: string)
    ensures Lower(a + b) == Lower(a) + Lower(b)
  {
    if a == [] {
      assert a + b == b;
    } else {
      assert (a + b)[0] == a[0];
      assert (a + b)[1..] == a[1..] + b;
      LowerAppend(a[1..], b);
      assert Lower(a + b) == LowerChar(a[0]) + (Lower(a[1..]) + Lower(b));
    }
  }

  /** Lower-casing keeps every occurrence: a message holding a word in any
      letter case holds the lower-cased word once lower-cased. */
  lemma LowerKeepsOccurrence(s: string, word: string)
    requires Contains(s, word)
    ensures Contains(Lower(s), Lower(word))
  {
    var i :| 0 <= i <= |s| - |word| && OccursAt(s, word, i);
    var p, q := s[..i], s[i + |word|..];
    assert s == p + word + q;
    LowerAppend(p + word, q);
    LowerAppend(p, word);
    var l := Lower(s);
    assert l == Lower(p) + Lower(word) + Lower(q);
    var j := |Lower(p)|;
    assert OccursAt(l, Lower(word), j);
  }

  /** A string that `toLowerCase` leaves alone. */
  lemma {:induction false} LowerOfLowerFixed(s: string)
    requires forall k :: 0 <= k < |s| ==> IsLowerFixed(s[k])
    ensures Lower(s) == s
  {
    if s != [] {
      LowerOfLowerFixed(s[1..]);
    }
  }

  /** A needle holding a character that `s` lacks does not occur in `s`. */
  lemma NotContainsMissingChar(s: string, needle: string, c: char)
    requires c in needle && c !in s
    ensures !Contains(s, needle)
  {
    var k :| 0 <= k < |needle| && needle[k] == c;
    forall i | 0 <= i <= |s| - |needle|
      ensures !OccursAt(s, needle, i)
    {
      assert s[i + k] in s;
      assert s[i..i + |needle|][k] == s[i + k];
    }
  }

  /** The characters `trim` removes: ECMAScript's WhiteSpace (TAB, VT, FF,
      ZWNBSP and the space separators) and LineTerminator code points. */
  predicate IsWhiteSpace(c: char) {
    || c == '\t' || c == '\n' || c == '\U{000B}' || c == '\U{000C}' || c == '\r'
    || c == ' ' || c == '\U{00A0}' || c == '\U{1680}'
    || ('\U{2000}' <= c <= '\U{200A}')
    || c == '\U{2028}' || c == '\U{2029}' || c == '\U{202F}' || c == '\U{205F}'
    || c == '\U{3000}' || c == '\U{FEFF}'
  }

  predicate AllWhiteSpace(s: string) {
    forall k :: 0 <= k < |s| ==> IsWhiteSpace(s[k])
  }

  /** Every character of `s` at an index in [lo, hi) is white space. */
  predicate WhiteSpaceIn(s: string, lo: int, hi: int) {
    forall k :: lo <= k < hi && 0 <= k < |s| ==> IsWhiteSpace(s[k])
  }

  /** `trimStart`: `s` without its leading white space. */
  function TrimStart(s: string): (r: string)
    ensures |r| <= |s| && r == s[|s| - |r|..]
    ensures WhiteSpaceIn(s, 0, |s| - |r|)
    ensures r != [] ==> !IsWhiteSpace(r[0])
  {
    if s != [] && IsWhiteSpace(s[0]) then
      var r := TrimStart(s[1..]);
      assert forall k :: 1 <= k < |s| ==> s[k] == s[1..][k - 1];
      r
    else s
  }

  /** `trimEnd`: `s` without its trailing white space. */
  function TrimEnd(s: string): (r: string)
    ensures |r| <= |s| && r == s[..|r|]
    ensures WhiteSpaceIn(s, |r|, |s|)
    ensures r != [] ==> !IsWhiteSpace(r[|r| - 1])
  {
    if s != [] && IsWhiteSpace(s[|s| - 1]) then TrimEnd(s[..|s| - 1]) else s
  }

  /** `trim`: a contiguous run of `s` whose removed ends are white space and
      which neither starts nor ends with white space. */
  function Trim(s: string): (r: string)
    ensures exists i, j :: 0 <= i <= j <= |s| && r == s[i..j]
                           && WhiteSpaceIn(s, 0, i) && WhiteSpaceIn(s, j, |s|)
    ensures r != [] ==> !IsWhiteSpace(r[0]) && !IsWhiteSpace(r[|r| - 1])
  {
    var t := TrimStart(s);
    var r := TrimEnd(t);
    TrimIsRun(s, t, r);
    r
  }

  /** The run of `s` that trimming keeps, and the white space around it. */
  lemma TrimIsRun(s: string, t: string, r: string)
    requires |t| <= |s| && t == s[|s| - |t|..] && WhiteSpaceIn(s, 0, |s| - |t|)
    requires |r| <= |t| && r == t[..|r|] && WhiteSpaceIn(t, |r|, |t|)
    ensures r == s[|s| - |t|..|s| - |t| + |r|]
    ensures WhiteSpaceIn(s, |s| - |t| + |r|, |s|)
  {
    var i := |s| - |t|;
    assert s[i..][..|r|] == s[i..i + |r|];
    forall k | i + |r| <= k < |s| ensures IsWhiteSpace(s[k]) {
      assert s[k] == t[k - i];
    }
  }

  /** Trimming an all-white-space string leaves nothing. */
  lemma TrimAllWhiteSpace(s: string)
    requires AllWhiteSpace(s)
    ensures Trim(s) == []
  {
    TrimStartAllWhiteSpace(s);
  }

  lemma {:induction false} TrimStartAllWhiteSpace(s: string)
    requires AllWhiteSpace(s)
    ensures TrimStart(s) == []
  {
    if s != [] {
      assert AllWhiteSpace(s[1..]) by {
        forall k | 0 <= k < |s| - 1 ensures IsWhiteSpace(s[1..][k]) {
          assert s[1..][k] == s[k + 1];
        }
      }
      TrimStartAllWhiteSpace(s[1..]);
    }
  }

  /** Trimming twice is trimming once. */
  lemma TrimIdempotent(s: string)
    ensures Trim(Trim(s)) == Trim(s)
  {
    var r := Trim(s);
    TrimUnchanged(r);
  }

  /** A string with no white space at either end is its own trim. */
  lemma TrimUnchanged(s: string)
    requires s != [] ==> !IsWhiteSpace(s[0]) && !IsWhiteSpace(s[|s| - 1])
    ensures Trim(s) == s
  {
    assert TrimStart(s) == s;
    assert TrimEnd(s) == s;
  }

  /** Trimming removes exactly the white space padding a text whose ends
      are not white space. */
  lemma TrimPadding(lead: string, text: string, trail: string)
    requires AllWhiteSpace(lead) && AllWhiteSpace(trail)
    requires text != [] && !IsWhiteSpace(text[0]) && !IsWhiteSpace(text[|text| - 1])
    ensures Trim(lead + text + trail) == text
  {
    var s := lead + text + trail;
    assert s == lead + (text + trail);
    assert (text + trail)[0] == text[0];
    TrimStartPadding(lead, text + trail);
    TrimEndPadding(text, trail);
    assert Trim(s) == TrimEnd(TrimStart(s));
  }

  lemma {:induction false} TrimStartPadding(lead: string, rest: string)
    requires AllWhiteSpace(lead)
    requires rest != [] && !IsWhiteSpace(rest[0])
    ensures TrimStart(lead + rest) == rest
  {
    if lead == [] {
      assert lead + rest == rest;
    } else {
      assert (lead + rest)[0] == lead[0];
      assert (lead + rest)[1..] == lead[1..] + rest;
      assert AllWhiteSpace(lead[1..]) by {
        forall k | 0 <= k < |lead| - 1 ensures IsWhiteSpace(lead[1..][k]) {
          assert lead[1..][k] == lead[k + 1];
        }
      }
      TrimStartPadding(lead[1..], rest);
    }
  }

  lemma {:induction false} TrimEndPadding(text: string, trail: string)
    requires AllWhiteSpace(trail)
    requires text != [] && !IsWhiteSpace(text[|text| - 1])
    ensures TrimEnd(text + trail) == text
  {
    if trail == [] {
      assert text + trail == text;
    } else {
      var s := text + trail;
      var shorter := trail[..|trail| - 1];
      assert s[|s| - 1] == trail[|trail| - 1];
      assert s[..|s| - 1] == text + shorter;
      assert AllWhiteSpace(shorter) by {
        forall k | 0 <= k < |shorter| ensures IsWhiteSpace(shorter[k]) {
          assert shorter[k] == trail[k];
        }
      }
      TrimEndPadding(text, shorter);
    }
  }

  /** `length`: the number of UTF-16 code units, so a character outside the
      Basic Multilingual Plane counts twice. */
  function Utf16Length(s: string): (n: nat)
    ensures |s| <= n <= 2 * |s|
  {
    if s == [] then 0
    else (if s[0] as int > 0xFFFF then 2 else 1) + Utf16Length(s[1..])
  }

  /** Characters outside the Basic Multilingual Plane count twice each. */
  lemma {:induction false} Utf16LengthOfAstral(s: string)
    requires forall k :: 0 <= k < |s| ==> s[k] as int > 0xFFFF
    ensures Utf16Length(s) == 2 * |s|
  {
    if s != [] {
      assert forall k :: 0 <= k < |s| - 1 ==> s[1..][k] == s[k + 1];
      Utf16LengthOfAstral(s[1..]);
    }
  }
}
