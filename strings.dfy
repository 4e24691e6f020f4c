/** The few string operations the portal's client and server rely on:
    whitespace trimming (JavaScript `trim`, Python `strip`), ASCII lower-casing
    (`toLowerCase`), substring search (`includes`), prefix test (`startsWith`),
    JavaScript's `length` in UTF-16 code units,
    splitting on one separator character (`split`) and deleting every
    occurrence of a pattern (Python `replace(p, "")`). */
module Strings {

  /** The two trimming operations differ in what counts as white space. */
  datatype Lang = JavaScript | Python

  /** The white space both languages trim: the ASCII controls tab to
      carriage return, the space, and the Unicode space separators and line
      and paragraph separators. */
  predicate CommonSpace(c: char) {
    || c == ' ' || c == '\t' || c == '\n' || c == '\r' || c == '\U{000B}' || c == '\U{000C}'
    || c == '\U{00A0}' || c == '\U{1680}' || ('\U{2000}' <= c <= '\U{200A}')
    || c == '\U{2028}' || c == '\U{2029}' || c == '\U{202F}' || c == '\U{205F}' || c == '\U{3000}'
  }

  /** JavaScript's WhiteSpace and LineTerminator characters (section 12.2
      and 12.3 of ECMA-262) add the byte order mark; Python's `str.isspace`
      adds the four separators U+001C to U+001F and U+0085. */
  predicate IsSpace(lang: Lang, c: char) {
    CommonSpace(c) ||
    match lang
    case JavaScript => c == '\U{FEFF}'
    case Python => ('\U{001C}' <= c <= '\U{001F}') || c == '\U{0085}'
  }

  function TrimStart(lang: Lang, s: string): (r: string)
    ensures r == [] || !IsSpace(lang, r[0])
    ensures |r| <= |s| && r == s[|s| - |r|..]
  {
    if |s| > 0 && IsSpace(lang, s[0]) then TrimStart(lang, s[1..]) else s
  }

  function TrimEnd(lang: Lang, s: string): (r: string)
    ensures r == [] || !IsSpace(lang, r[|r| - 1])
    ensures |r| <= |s| && r == s[..|r|]
  {
    if |s| > 0 && IsSpace(lang, s[|s| - 1]) then TrimEnd(lang, s[..|s| - 1]) else s
  }

  function TrimIn(lang: Lang, s: string): string {
    TrimEnd(lang, TrimStart(lang, s))
  }

  /** JavaScript `String.prototype.trim`. */
  function Trim(s: string): string {
    TrimIn(JavaScript, s)
  }

  /** Python `str.strip()` without arguments. */
  function Strip(s: string): string {
    TrimIn(Python, s)
  }

  lemma TrimmedEnds(lang: Lang, s: string)
    ensures var r := TrimIn(lang, s); r == [] || (!IsSpace(lang, r[0]) && !IsSpace(lang, r[|r| - 1]))
  {
    var t := TrimStart(lang, s);
    var r := TrimEnd(lang, t);
    if r != [] {
      assert r[0] == t[0];
    }
  }

  /** A string without leading or trailing whitespace is its own trim. */
  lemma TrimOfTrimmed(lang: Lang, s: string)
    requires s == [] || (!IsSpace(lang, s[0]) && !IsSpace(lang, s[|s| - 1]))
    ensures TrimIn(lang, s) == s
  {
  }

  /** Trimming twice is trimming once. */
  lemma TrimIdempotent(lang: Lang, s: string)
    ensures TrimIn(lang, TrimIn(lang, s)) == TrimIn(lang, s)
  {
    TrimmedEnds(lang, s);
    TrimOfTrimmed(lang, TrimIn(lang, s));
  }

  /** The two trims disagree: Python strips the unit separator U+001F,
      which JavaScript keeps ... */
  lemma UnitSeparatorBefore(c: char)
    requires c == '\U{001F}'
    ensures Strip([c] + "x") == "x" && Trim([c] + "x") == [c] + "x"
  {
    var w := [c] + "x";
    assert w[0] == c && w[|w| - 1] == 'x';
    assert IsSpace(Python, c) && !IsSpace(JavaScript, c);
    TrimOneLeading(Python, c, "x");
    TrimOfTrimmed(JavaScript, w);
  }

  /** ... and JavaScript strips the byte order mark, which Python keeps. */
  lemma ByteOrderMarkBefore(c: char)
    requires c == '\U{FEFF}'
    ensures Trim([c] + "x") == "x" && Strip([c] + "x") == [c] + "x"
  {
    var w := [c] + "x";
    assert w[0] == c && w[|w| - 1] == 'x';
    assert IsSpace(JavaScript, c) && !IsSpace(Python, c);
    TrimOneLeading(JavaScript, c, "x");
    TrimOfTrimmed(Python, w);
  }

  /** One leading white-space character before a word is trimmed away. */
  lemma TrimOneLeading(lang: Lang, c: char, w: string)
    requires IsSpace(lang, c)
    requires w != [] && !IsSpace(lang, w[0]) && !IsSpace(lang, w[|w| - 1])
    ensures TrimIn(lang, [c] + w) == w
  {
    assert ([c] + w)[1..] == w;
    assert TrimStart(lang, [c] + w) == TrimStart(lang, w);
  }

  function LowerChar(c: char): char {
    if 'A' <= c <= 'Z' then (c as int + 32) as char else c
  }

  /** `toLowerCase` on ASCII letters; every other character is kept. */
  function Lower(s: string): (r: string)
    ensures |r| == |s|
    ensures forall i :: 0 <= i < |s| ==> r[i] == LowerChar(s[i])
  {
    if s == [] then [] else [LowerChar(s[0])] + Lower(s[1..])
  }

  /** Lower-casing distributes over concatenation. */
  lemma {:induction false} LowerAppend(a: string, b: string)
    ensures Lower(a + b) == Lower(a) + Lower(b)
  {
    var l, r := Lower(a + b), Lower(a) + Lower(b);
    assert |l| == |r|;
    forall i | 0 <= i < |l| ensures l[i] == r[i] {
      if i < |a| { assert (a + b)[i] == a[i]; } else { assert (a + b)[i] == b[i - |a|]; }
    }
  }

  predicate StartsWith(s: string, p: string) {
    |p| <= |s| && s[..|p|] == p
  }

  /** `s.includes(p)` / Python `p in s`. */
  predicate Contains(s: string, p: string)
    decreases |s|
  {
    StartsWith(s, p) || (|s| > 0 && Contains(s[1..], p))
  }

  /** An occurrence at a known position is found. */
  lemma {:induction false} ContainsAt(s: string, p: string, i: nat)
    requires i + |p| <= |s| && s[i..i + |p|] == p
    ensures Contains(s, p)
    decreases i
  {
    if i == 0 {
      assert s[..|p|] == p;
    } else {
      assert s[1..][i - 1..i - 1 + |p|] == s[i..i + |p|];
      ContainsAt(s[1..], p, i - 1);
    }
  }

  /** A string found in `s` is found in anything that has `s` as a factor. */
  lemma ContainsInFactor(a: string, s: string, b: string, p: string)
    requires Contains(s, p)
    ensures Contains(a + s + b, p)
  {
    var i := FoundAt(s, p);
    var w := a + s + b;
    assert w[|a| + i..|a| + i + |p|] == s[i..i + |p|];
    ContainsAt(w, p, |a| + i);
  }

  /** A string found in `a` is found in `a + b`. */
  lemma ContainsPrefixOf(a: string, b: string, p: string)
    requires Contains(a, p)
    ensures Contains(a + b, p)
  {
    var i := FoundAt(a, p);
    assert (a + b)[i..i + |p|] == a[i..i + |p|];
    ContainsAt(a + b, p, i);
  }

  /** The position of some occurrence of `p` in `s`. */
  lemma {:induction false} FoundAt(s: string, p: string) returns (i: nat)
    requires Contains(s, p)
    ensures i + |p| <= |s| && s[i..i + |p|] == p
    decreases |s|
  {
    if StartsWith(s, p) {
      i := 0;
    } else {
      var j := FoundAt(s[1..], p);
      assert s[1..][j..j + |p|] == s[j + 1..j + 1 + |p|];
      i := j + 1;
    }
  }

  /** `s.split(sep)` for a one-character separator: the pieces between
      separators, always at least one. */
  function Split(s: string, sep: char): (r: seq<string>)
    ensures |r| >= 1
    ensures forall k :: 0 <= k < |r| ==> sep !in r[k]
  {
    if s == [] then [""]
    else if s[0] == sep then [""] + Split(s[1..], sep)
    else
      var rest := Split(s[1..], sep);
      [[s[0]] + rest[0]] + rest[1..]
  }

  /** A string without the separator is a single piece. */
  lemma {:induction false} SplitNoSep(s: string, sep: char)
    requires sep !in s
    ensures Split(s, sep) == [s]
  {
    if s != [] {
      SplitNoSep(s[1..], sep);
      assert [s[0]] + s[1..] == s;
    }
  }

  /** Splitting around one separator splits each side. */
  lemma {:induction false} SplitAround(a: string, b: string, sep: char)
    ensures Split(a + [sep] + b, sep) == Split(a, sep) + Split(b, sep)
  {
    if a == [] {
      assert a + [sep] + b == [sep] + b;
      assert ([sep] + b)[1..] == b;
    } else {
      var w := a + [sep] + b;
      assert w[0] == a[0] && w[1..] == a[1..] + [sep] + b;
      SplitAround(a[1..], b, sep);
      if a[0] == sep {
        assert sep in a;
      } else {
        var ra := Split(a[1..], sep);
        assert Split(a, sep) == [[a[0]] + ra[0]] + ra[1..];
      }
    }
  }

  /** Appending one more separator and piece appends one more piece. */
  lemma SplitSnoc(a: string, piece: string, sep: char)
    requires sep !in piece
    ensures Split(a + [sep] + piece, sep) == Split(a, sep) + [piece]
  {
    SplitAround(a, piece, sep);
    SplitNoSep(piece, sep);
  }

  /** Concatenation is associative; stated once so that long chains of `+`
      need not be regrouped by extensionality. */
  lemma SeqAppendAssoc<T>(a: seq<T>, b: seq<T>, c: seq<T>)
    ensures a + b + c == a + (b + c)
  {
  }

  /** The first piece is everything before the first separator. */
  lemma FirstPiece(a: string, rest: string, sep: char)
    requires sep !in a
    ensures Split(a + [sep] + rest, sep)[0] == a
  {
    SplitAround(a, rest, sep);
    SplitNoSep(a, sep);
  }

  /** A string starts with any prefix of its own prefix. */
  lemma StartsWithAppend(p: string, a: string, b: string)
    ensures StartsWith(p + a + b, p)
  {
    assert (p + a + b)[..|p|] == p;
  }

  /** Python `s.replace(p, "")`: deletes the non-overlapping occurrences of `p`
      found scanning left to right. */
  function RemoveAll(s: string, p: string): (r: string)
    requires |p| > 0
    ensures |r| <= |s|
    decreases |s|
  {
    if |s| < |p| then s
    else if s[..|p|] == p then RemoveAll(s[|p|..], p)
    else [s[0]] + RemoveAll(s[1..], p)
  }

  /** Nothing is deleted from a string that does not contain the pattern. */
  lemma {:induction false} RemoveAllAbsent(s: string, p: string)
    requires |p| > 0 && !Contains(s, p)
    ensures RemoveAll(s, p) == s
    decreases |s|
  {
    if |s| >= |p| {
      assert s[..|p|] != p;
      RemoveAllAbsent(s[1..], p);
      assert [s[0]] + s[1..] == s;
    }
  }

  /** Deleting a pattern from `p + x`, where `x` does not contain it, gives `x`. */
  lemma RemoveLeadingPattern(p: string, x: string)
    requires |p| > 0 && !Contains(x, p)
    ensures RemoveAll(p + x, p) == x
  {
    var w := p + x;
    assert w[..|p|] == p && w[|p|..] == x;
    RemoveAllAbsent(x, p);
  }

  /** JavaScript's `length` of a string: its UTF-16 code units, so a
      character outside the Basic Multilingual Plane counts twice. */
  function Utf16Length(s: string): (n: nat)
    ensures |s| <= n <= 2 * |s|
  {
    if s == [] then 0 else (if Wide(s[0]) then 2 else 1) + Utf16Length(s[1..])
  }

  /** A character JavaScript stores as a surrogate pair. */
  predicate Wide(c: char) { c as int >= 0x10000 }

  /** A string has as many UTF-16 code units as characters exactly when none
      of its characters is wide. */
  lemma {:induction false} Utf16LengthNarrow(s: string)
    ensures Utf16Length(s) == |s| <==> forall i :: 0 <= i < |s| ==> !Wide(s[i])
  {
    if s != [] {
      Utf16LengthNarrow(s[1..]);
      assert forall i :: 1 <= i < |s| ==> s[i] == s[1..][i - 1];
    }
  }

  /** The code-unit length adds over concatenation. */
  lemma {:induction false} Utf16LengthAppend(a: string, b: string)
    ensures Utf16Length(a + b) == Utf16Length(a) + Utf16Length(b)
  {
    if a != [] {
      assert (a + b)[0] == a[0] && (a + b)[1..] == a[1..] + b;
      Utf16LengthAppend(a[1..], b);
    } else {
      assert a + b == b;
    }
  }

  /** The concatenation of a list of strings (`Array.join('')`). */
  function Concat(parts: seq<string>): string {
    if parts == [] then "" else parts[0] + Concat(parts[1..])
  }
}
