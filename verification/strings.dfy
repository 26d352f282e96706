/**
 * Character and string primitives the parsers and the classifier are built
 * on: Python's notion of whitespace, `str.strip`, the substring test `sub in s`,
 * `str.replace` of a single character, `str.isdigit` restricted to ASCII, and
 * the one fixed pattern `[（(]\d{6}[）)]` that both the channel detector and the
 * fund parser search for.
 */
module Strings {

  datatype Option<+T> = None | Some(value: T)

  /** The characters for which Python's `str.isspace` holds (also what `\s` matches). */
  predicate IsSpace(c: char) {
    || c == ' '
    || ('\t' <= c <= '\r')
    || ('\U{1C}' <= c <= '\U{1F}')
    || c == '\U{85}' || c == '\U{A0}' || c == '\U{1680}'
    || ('\U{2000}' <= c <= '\U{200A}')
    || c == '\U{2028}' || c == '\U{2029}' || c == '\U{202F}' || c == '\U{205F}'
    || c == '\U{3000}'
  }

  predicate IsDigit(c: char) {
    '0' <= c <= '9'
  }

  /** Digits only, read from the right; the empty string qualifies. */
  predicate AllDigits(s: string) {
    s == [] || (AllDigits(s[..|s| - 1]) && IsDigit(s[|s| - 1]))
  }

  /** `AllDigits` holds exactly when every character is a digit. */
  lemma {:induction false} AllDigitsAt(s: string)
    ensures AllDigits(s) <==> forall i | 0 <= i < |s| :: IsDigit(s[i])
  {
    if s != [] {
      AllDigitsAt(s[..|s| - 1]);
    }
  }

  /** Digits concatenate. */
  lemma {:induction false} AllDigitsAppend(a: string, b: string)
    requires AllDigits(a) && AllDigits(b)
    ensures AllDigits(a + b)
  {
    if b == [] {
      assert a + b == a;
    } else {
      assert (a + b)[..|a + b| - 1] == a + b[..|b| - 1];
      AllDigitsAppend(a, b[..|b| - 1]);
    }
  }

  /** Python `s.isdigit()` over ASCII digits: non-empty and digits only. */
  predicate IsDigits(s: string) {
    s != [] && AllDigits(s)
  }

  /** Removes leading whitespace. */
  function TrimStart(s: string): (r: string)
    ensures |r| <= |s| && r == s[|s| - |r|..]
    ensures r != [] ==> !IsSpace(r[0])
    ensures forall i | 0 <= i < |s| - |r| :: IsSpace(s[i])
  {
    if s != [] && IsSpace(s[0]) then TrimStart(s[1..]) else s
  }

  /** Removes trailing whitespace. */
  function TrimEnd(s: string): (r: string)
    ensures |r| <= |s| && r == s[..|r|]
    ensures r != [] ==> !IsSpace(r[|r| - 1])
    ensures forall i | |r| <= i < |s| :: IsSpace(s[i])
  {
    if s != [] && IsSpace(s[|s| - 1]) then TrimEnd(s[..|s| - 1]) else s
  }

  /** No whitespace at either end. */
  predicate IsStripped(s: string) {
    s != [] ==> !IsSpace(s[0]) && !IsSpace(s[|s| - 1])
  }

  /** Python `s.strip()`. */
  function Strip(s: string): (r: string)
    ensures |r| <= |s| && IsStripped(r)
  {
    if s != [] && IsSpace(s[0]) then Strip(s[1..]) else TrimEnd(s)
  }

  /** `Strip` removes whitespace only: what it keeps is the contiguous part of
      `s` that starts at `k`, with nothing but whitespace on either side. */
  lemma {:induction false} StripSpan(s: string) returns (k: nat)
    ensures k + |Strip(s)| <= |s| && s[k..k + |Strip(s)|] == Strip(s)
    ensures forall i | 0 <= i < k :: IsSpace(s[i])
    ensures forall i | k + |Strip(s)| <= i < |s| :: IsSpace(s[i])
  {
    if s != [] && IsSpace(s[0]) {
      var k' := StripSpan(s[1..]);
      k := k' + 1;
      var t := Strip(s[1..]);
      assert Strip(s) == t;
      TailSlice(s, k', k' + |t|);
      forall i | k + |t| <= i < |s| ensures IsSpace(s[i]) {
        assert s[i] == s[1..][i - 1];
      }
      forall i | 0 <= i < k ensures IsSpace(s[i]) {
        if i > 0 {
          assert s[i] == s[1..][i - 1];
        }
      }
    } else {
      k := 0;
    }
  }

  /** Slicing the tail of `s` is slicing `s` one place further on. */
  lemma TailSlice(s: string, a: nat, b: nat)
    requires a <= b < |s|
    ensures s[1..][a..b] == s[a + 1..b + 1]
  {
  }

  /** A string with no leading or trailing whitespace is its own strip. */
  lemma StripStripped(s: string)
    requires IsStripped(s)
    ensures Strip(s) == s
  {
  }

  /** Removes leading copies of `c`. */
  function TrimCharStart(s: string, c: char): (r: string)
    ensures |r| <= |s| && r == s[|s| - |r|..]
    ensures r != [] ==> r[0] != c
    ensures forall i | 0 <= i < |s| - |r| :: s[i] == c
  {
    if s != [] && s[0] == c then TrimCharStart(s[1..], c) else s
  }

  /** Removes trailing copies of `c`. */
  function TrimCharEnd(s: string, c: char): (r: string)
    ensures |r| <= |s| && r == s[..|r|]
    ensures r != [] ==> r[|r| - 1] != c
    ensures forall i | |r| <= i < |s| :: s[i] == c
  {
    if s != [] && s[|s| - 1] == c then TrimCharEnd(s[..|s| - 1], c) else s
  }

  /** Python `s.strip(c)` for one character `c`. */
  function StripChar(s: string, c: char): (r: string)
    ensures |r| <= |s|
    ensures r != [] ==> r[0] != c && r[|r| - 1] != c
  {
    TrimCharEnd(TrimCharStart(s, c), c)
  }

  /** `sub` occurs in `s` starting at index `i`. */
  predicate OccursAt(s: string, sub: string, i: int) {
    0 <= i && i + |sub| <= |s| && s[i..i + |sub|] == sub
  }

  /** Python `sub in s`. */
  predicate Contains(s: string, sub: string) {
    exists i | 0 <= i <= |s| - |sub| :: OccursAt(s, sub, i)
  }

  /** Every character of an occurring substring is a character of the string. */
  lemma ContainsChars(s: string, sub: string, c: char)
    requires Contains(s, sub) && c in sub
    ensures c in s
  {
    var i :| 0 <= i <= |s| - |sub| && OccursAt(s, sub, i);
    var j :| 0 <= j < |sub| && sub[j] == c;
    assert s[i + j] == s[i..i + |sub|][j];
  }

  /** Absence of one character of `sub` rules out an occurrence of `sub`. */
  lemma NotContainsByChar(s: string, sub: string, c: char)
    requires c in sub && c !in s
    ensures !Contains(s, sub)
  {
    if Contains(s, sub) {
      ContainsChars(s, sub, c);
    }
  }

  lemma ContainsWitness(s: string, sub: string, i: int)
    requires OccursAt(s, sub, i)
    ensures Contains(s, sub)
  {
  }

  /** An occurrence in a longer string is kept when text is added around it. */
  lemma ContainsInfix(a: string, s: string, b: string, sub: string)
    requires Contains(s, sub)
    ensures Contains(a + s + b, sub)
  {
    var i :| 0 <= i <= |s| - |sub| && OccursAt(s, sub, i);
    assert (a + s + b)[|a| + i..|a| + i + |sub|] == s[i..i + |sub|];
    assert OccursAt(a + s + b, sub, |a| + i);
  }

  /** A suffix has no occurrence of `sub` when none starts at or after the cut. */
  lemma NotContainsSuffix(s: string, sub: string, off: nat)
    requires off <= |s|
    requires forall k | off <= k <= |s| - |sub| :: !OccursAt(s, sub, k)
    ensures !Contains(s[off..], sub)
  {
    forall q | 0 <= q <= |s| - off - |sub| ensures !OccursAt(s[off..], sub, q) {
      assert s[off..][q..q + |sub|] == s[off + q..off + q + |sub|];
      assert !OccursAt(s, sub, off + q);
    }
  }

  /** Python `s.replace(c, '')`. */
  function RemoveChar(s: string, c: char): (r: string)
    ensures c !in r && |r| <= |s|
  {
    if s == [] then []
    else (if s[0] == c then [] else [s[0]]) + RemoveChar(s[1..], c)
  }

  /** What is left after removing `c` is every other character of `s`. */
  lemma {:induction false} RemoveCharMembers(s: string, c: char)
    ensures forall x :: x in RemoveChar(s, c) <==> x in s && x != c
  {
    if s != [] {
      RemoveCharMembers(s[1..], c);
      assert forall x :: x in s <==> x == s[0] || x in s[1..];
    }
  }

  /** Removing a character that does not occur changes nothing. */
  lemma {:induction false} RemoveAbsentChar(s: string, c: char)
    requires c !in s
    ensures RemoveChar(s, c) == s
  {
    if s != [] {
      RemoveAbsentChar(s[1..], c);
    }
  }

  /** Python `s.replace(a, b)` for single characters. */
  function ReplaceChar(s: string, a: char, b: char): (r: string)
    ensures |r| == |s|
    ensures forall i | 0 <= i < |s| :: r[i] == if s[i] == a then b else s[i]
  {
    if s == [] then []
    else [if s[0] == a then b else s[0]] + ReplaceChar(s[1..], a, b)
  }

  /** Python `s.find(c)` for a character, as an option: the first index of `c`. */
  function IndexOf(s: string, c: char): (r: Option<nat>)
    ensures r.Some? ==> r.value < |s| && s[r.value] == c && c !in s[..r.value]
    ensures r.None? ==> c !in s
  {
    if s == [] then None
    else if s[0] == c then Some(0)
    else match IndexOf(s[1..], c)
      case None => None
      case Some(k) => (assert s[..k + 1] == [s[0]] + s[1..][..k]; Some(k + 1))
  }

  /** Python `sep.join(parts)`. */
  function Join(parts: seq<string>, sep: string): (r: string)
    ensures parts == [] ==> r == []
    ensures |parts| == 1 ==> r == parts[0]
  {
    if parts == [] then []
    else if |parts| == 1 then parts[0]
    else parts[0] + sep + Join(parts[1..], sep)
  }

  predicate IsOpenParen(c: char) {
    c == '（' || c == '('
  }

  predicate IsCloseParen(c: char) {
    c == '）' || c == ')'
  }

  /** The pattern `[（(]\d{6}[）)]` matches at index `i` of `s`. */
  predicate CodeAt(s: string, i: int) {
    && 0 <= i && i + 8 <= |s|
    && IsOpenParen(s[i])
    && IsDigits(s[i + 1..i + 7])
    && IsCloseParen(s[i + 7])
  }

  /** `re.search(r'[（(](\d{6})[）)]', s)`: the leftmost match, searching from `from`. */
  function FindCodeFrom(s: string, from: nat): (r: Option<nat>)
    requires from <= |s|
    ensures r.Some? ==> from <= r.value && CodeAt(s, r.value)
    ensures r.Some? ==> forall k | from <= k < r.value :: !CodeAt(s, k)
    ensures r.None? ==> forall k | from <= k < |s| :: !CodeAt(s, k)
    decreases |s| - from
  {
    if from + 8 > |s| then None
    else if CodeAt(s, from) then Some(from)
    else FindCodeFrom(s, from + 1)
  }

  function FindCode(s: string): (r: Option<nat>)
    ensures r.Some? ==> CodeAt(s, r.value) && forall k | 0 <= k < r.value :: !CodeAt(s, k)
    ensures r.None? ==> forall k | 0 <= k < |s| :: !CodeAt(s, k)
  {
    FindCodeFrom(s, 0)
  }

  /** The index of the first line containing `sub`, as a `next(...)` over `enumerate`. */
  function FirstContaining(lines: seq<string>, sub: string): (r: Option<nat>)
    ensures r.Some? ==> r.value < |lines| && Contains(lines[r.value], sub)
    ensures r.Some? ==> forall k | 0 <= k < r.value :: !Contains(lines[k], sub)
    ensures r.None? ==> forall k | 0 <= k < |lines| :: !Contains(lines[k], sub)
  {
    if lines == [] then None
    else if Contains(lines[0], sub) then Some(0)
    else match FirstContaining(lines[1..], sub)
      case None => None
      case Some(k) => Some(k + 1)
  }

  /** Python `any(sub in line for line in lines)`. */
  predicate AnyContains(lines: seq<string>, sub: string) {
    exists i | 0 <= i < |lines| :: Contains(lines[i], sub)
  }

  function Max(a: real, b: real): real {
    if a >= b then a else b
  }

  function Min(a: real, b: real): real {
    if a <= b then a else b
  }
}
