/**
 * The JavaScript string built-ins the core relies on: `String.prototype.trim`,
 * `toUpperCase` (on ASCII letters), `split(' ')` and `Array.prototype.join`.
 * A `char` is a Unicode scalar value, whereas a JavaScript string is a
 * sequence of UTF-16 code units; the two agree on the characters of the
 * Basic Multilingual Plane, where every character these functions treat
 * specially lies.
 */
module JsText {

  /** ECMAScript WhiteSpace and LineTerminator code points: what `trim` strips and `parseFloat` skips. */
  predicate IsWhiteSpace(c: char) {
    var n := c as int;
    (0x09 <= n <= 0x0D) || n == 0x20 || n == 0xA0 || n == 0x1680 || (0x2000 <= n <= 0x200A)
    || n == 0x2028 || n == 0x2029 || n == 0x202F || n == 0x205F || n == 0x3000 || n == 0xFEFF
  }

  /** `\d` of a regular expression without the `u` flag. */
  predicate IsAsciiDigit(c: char) {
    '0' <= c <= '9'
  }

  /** `[A-Z]` of a regular expression with the `i` flag and without the `u` flag. */
  predicate IsAsciiLetter(c: char) {
    'A' <= c <= 'Z' || 'a' <= c <= 'z'
  }

  predicate IsAsciiLower(c: char) {
    'a' <= c <= 'z'
  }

  predicate AllAscii(s: string) {
    forall i :: 0 <= i < |s| ==> s[i] as int < 0x80
  }

  predicate AllWhiteSpace(s: string) {
    forall i :: 0 <= i < |s| ==> IsWhiteSpace(s[i])
  }

  /** `s` without its leading white space: `trimStart`, and what `parseFloat` skips. */
  function TrimStart(s: string): string {
    if s != [] && IsWhiteSpace(s[0]) then TrimStart(s[1..]) else s
  }

  /** `s` without its trailing white space: `trimEnd`. */
  function TrimEnd(s: string): string {
    if s != [] && IsWhiteSpace(s[|s| - 1]) then TrimEnd(s[..|s| - 1]) else s
  }

  /** `String.prototype.trim`: white space removed at both ends. */
  function Trim(s: string): string {
    TrimEnd(TrimStart(s))
  }

  /** `TrimStart(s)` is a suffix of `s`, what it drops is white space, and it does not start with white space. */
  lemma {:induction false} TrimStartShape(s: string)
    ensures |TrimStart(s)| <= |s| && TrimStart(s) == s[|s| - |TrimStart(s)|..]
    ensures forall i :: 0 <= i < |s| - |TrimStart(s)| ==> IsWhiteSpace(s[i])
    ensures TrimStart(s) != [] ==> !IsWhiteSpace(TrimStart(s)[0])
  {
    if s != [] && IsWhiteSpace(s[0]) {
      TrimStartShape(s[1..]);
      assert forall i :: 1 <= i < |s| ==> s[i] == s[1..][i - 1];
    }
  }

  /** `TrimEnd(s)` is a prefix of `s`, what it drops is white space, and it does not end with white space. */
  lemma {:induction false} TrimEndShape(s: string)
    ensures |TrimEnd(s)| <= |s| && TrimEnd(s) == s[..|TrimEnd(s)|]
    ensures forall i :: |TrimEnd(s)| <= i < |s| ==> IsWhiteSpace(s[i])
    ensures TrimEnd(s) != [] ==> !IsWhiteSpace(TrimEnd(s)[|TrimEnd(s)| - 1])
  {
    if s != [] && IsWhiteSpace(s[|s| - 1]) {
      TrimEndShape(s[..|s| - 1]);
    }
  }

  /** A string with no white space at either end is its own trim. */
  lemma TrimUnchanged(s: string)
    requires s == [] || (!IsWhiteSpace(s[0]) && !IsWhiteSpace(s[|s| - 1]))
    ensures Trim(s) == s
  {
    assert TrimStart(s) == s;
  }

  /** A slice of a suffix, with white space before the suffix and after the slice, has only white space around it in `s`. */
  lemma WhiteAroundSlice(s: string, t: string, u: string, k: nat)
    requires k <= |s| && t == s[k..] && |u| <= |t| && u == t[..|u|]
    requires forall i :: 0 <= i < k ==> IsWhiteSpace(s[i])
    requires forall i :: |u| <= i < |t| ==> IsWhiteSpace(t[i])
    ensures k + |u| <= |s| && u == s[k..k + |u|]
    ensures forall i :: 0 <= i < |s| && !(k <= i < k + |u|) ==> IsWhiteSpace(s[i])
  {
    forall i | k + |u| <= i < |s|
      ensures IsWhiteSpace(s[i])
    {
      assert s[i] == t[i - k];
    }
  }

  /**
   * `Trim(s)` is the slice of `s` starting after its leading white space;
   * every character outside the slice is white space, the slice neither
   * starts nor ends with white space, and it is empty exactly when `s` is all
   * white space, which is what a JavaScript test `!s.trim()` detects.
   */
  lemma TrimShape(s: string)
    ensures |TrimStart(s)| <= |s|
    ensures var k := |s| - |TrimStart(s)|;
      && k + |Trim(s)| <= |s| && Trim(s) == s[k..k + |Trim(s)|]
      && (forall i :: 0 <= i < |s| && !(k <= i < k + |Trim(s)|) ==> IsWhiteSpace(s[i]))
    ensures Trim(s) == [] <==> AllWhiteSpace(s)
    ensures Trim(s) != [] ==> !IsWhiteSpace(Trim(s)[0]) && !IsWhiteSpace(Trim(s)[|Trim(s)| - 1])
  {
    var t := TrimStart(s);
    var u := Trim(s);
    TrimStartShape(s);
    TrimEndShape(t);
    var k := |s| - |t|;
    WhiteAroundSlice(s, t, u, k);
    if u != [] {
      assert u[0] == t[0];
      assert !AllWhiteSpace(s) by {
        assert s[k] == u[0];
      }
    }
  }

  /** `toUpperCase` of one character, exact on ASCII; other characters are left as they are. */
  function UpperChar(c: char): char {
    if IsAsciiLower(c) then (c as int - 32) as char else c
  }

  /**
   * `String.prototype.toUpperCase`, character by character. It is exact on
   * strings of ASCII characters, which are the only ones the search endpoint
   * upper-cases.
   */
  function ToUpper(s: string): (r: string)
    ensures |r| == |s|
    ensures forall i :: 0 <= i < |s| ==> r[i] == UpperChar(s[i])
    ensures forall i :: 0 <= i < |r| ==> !IsAsciiLower(r[i])
  {
    if s == [] then [] else [UpperChar(s[0])] + ToUpper(s[1..])
  }

  /** Upper-casing leaves digits and every non-letter alone and keeps letters letters. */
  lemma UpperCharFacts(c: char)
    ensures IsAsciiDigit(UpperChar(c)) <==> IsAsciiDigit(c)
    ensures IsAsciiLetter(UpperChar(c)) <==> IsAsciiLetter(c)
    ensures !IsAsciiLetter(c) ==> UpperChar(c) == c
  {
  }

  /** Upper-casing twice is upper-casing once. */
  lemma ToUpperIdempotent(s: string)
    ensures ToUpper(ToUpper(s)) == ToUpper(s)
  {
    var u := ToUpper(s);
    assert forall i :: 0 <= i < |u| ==> ToUpper(u)[i] == u[i];
  }

  /** `s.split(' ')`: the pieces between single spaces, empty pieces included. */
  function Split(s: string): (r: seq<string>)
    ensures |r| >= 1
    ensures forall i :: 0 <= i < |r| ==> ' ' !in r[i]
  {
    if s == [] then [""]
    else if s[0] == ' ' then [""] + Split(s[1..])
    else
      var rest := Split(s[1..]);
      [[s[0]] + rest[0]] + rest[1..]
  }

  /** `parts.join(sep)`. */
  function Join(parts: seq<string>, sep: string): string {
    if |parts| == 0 then ""
    else if |parts| == 1 then parts[0]
    else parts[0] + sep + Join(parts[1..], sep)
  }

  /** Joining onto a first part that is extended at the front. */
  lemma JoinConsHead(c: string, parts: seq<string>, sep: string)
    requires |parts| >= 1
    ensures Join([c + parts[0]] + parts[1..], sep) == c + Join(parts, sep)
  {
    var q := [c + parts[0]] + parts[1..];
    assert q[1..] == parts[1..];
  }

  /** Re-joining the pieces of `s.split(' ')` with single spaces gives `s` back. */
  lemma {:induction false} JoinSplit(s: string)
    ensures Join(Split(s), " ") == s
  {
    if s == [] {
    } else if s[0] == ' ' {
      JoinSplit(s[1..]);
      var r := [""] + Split(s[1..]);
      assert r[1..] == Split(s[1..]);
      assert s == " " + s[1..];
    } else {
      JoinSplit(s[1..]);
      var rest := Split(s[1..]);
      JoinConsHead([s[0]], rest, " ");
      assert s == [s[0]] + s[1..];
    }
  }

  /** A string without spaces splits into itself alone. */
  lemma {:induction false} SplitNoSpace(t: string)
    requires ' ' !in t
    ensures Split(t) == [t]
  {
    if t != [] {
      assert ' ' !in t[1..] by { assert forall c :: c in t[1..] ==> c in t; }
      SplitNoSpace(t[1..]);
      assert t == [t[0]] + t[1..];
    }
  }

  /** A space after a space-free first piece separates it from the pieces of the rest. */
  lemma {:induction false} SplitAfterToken(t: string, rest: string)
    requires ' ' !in t
    ensures Split(t + " " + rest) == [t] + Split(rest)
  {
    if t == [] {
      assert t + " " + rest == " " + rest;
      assert (" " + rest)[1..] == rest;
    } else {
      assert ' ' !in t[1..] by { assert forall c :: c in t[1..] ==> c in t; }
      SplitAfterToken(t[1..], rest);
      var s := t + " " + rest;
      assert s[0] == t[0] && s[0] != ' ';
      assert s[1..] == t[1..] + " " + rest;
      assert [t[0]] + t[1..] == t;
    }
  }

  /** Splitting a join of space-free parts by single spaces gives the parts back. */
  lemma {:induction false} SplitJoin(parts: seq<string>)
    requires |parts| >= 1
    requires forall i :: 0 <= i < |parts| ==> ' ' !in parts[i]
    ensures Split(Join(parts, " ")) == parts
  {
    if |parts| == 1 {
      SplitNoSpace(parts[0]);
    } else {
      SplitJoin(parts[1..]);
      SplitAfterToken(parts[0], Join(parts[1..], " "));
      assert parts == [parts[0]] + parts[1..];
    }
  }
}
