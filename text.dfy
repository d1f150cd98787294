/** The few string operations of JavaScript that the game logic relies on:
    `toLowerCase` (restricted to ASCII letters), `includes`, `indexOf`,
    `replace` with a string pattern (first occurrence only), `split(' ')`,
    `trim() === ''`, `length` in UTF-16 code units and
    `Number.prototype.toString` on integers. */
module Text {
  import opened Wrappers

  /** `c.toLowerCase()` for ASCII upper-case letters; every other character is kept. */
  function LowerChar(c: char): char {
    if 'A' <= c <= 'Z' then (c as int + 32) as char else c
  }

  function Lower(s: string): (r: string)
    ensures |r| == |s|
    ensures forall i :: 0 <= i < |s| ==> r[i] == LowerChar(s[i])
  {
    seq(|s|, i requires 0 <= i < |s| => LowerChar(s[i]))
  }

  /** `pat` occurs in `s` starting at position `j`. */
  predicate OccursAt(s: string, pat: string, j: int) {
    0 <= j && j + |pat| <= |s| && s[j..j + |pat|] == pat
  }

  /** `s.indexOf(pat, from)`: the first position at or after `from` where `pat` occurs. */
  function IndexFrom(s: string, pat: string, from: nat): (r: Option<nat>)
    requires from <= |s| + 1
    ensures r.Some? ==> from <= r.value && OccursAt(s, pat, r.value)
    ensures r.Some? ==> forall j :: from <= j < r.value ==> !OccursAt(s, pat, j)
    ensures r.None? ==> forall j :: from <= j ==> !OccursAt(s, pat, j)
    decreases |s| + 1 - from
  {
    if from + |pat| > |s| then None
    else if s[from..from + |pat|] == pat then Some(from)
    else IndexFrom(s, pat, from + 1)
  }

  function IndexOf(s: string, pat: string): (r: Option<nat>)
    ensures r.Some? ==> OccursAt(s, pat, r.value)
    ensures r.Some? ==> forall j :: 0 <= j < r.value ==> !OccursAt(s, pat, j)
    ensures r.None? <==> forall j :: !OccursAt(s, pat, j)
  {
    IndexFrom(s, pat, 0)
  }

  /** `pat` occurs in `s` at position `from` or later. */
  predicate ContainsFrom(s: string, pat: string, from: nat)
    decreases |s| + 1 - from
  {
    from + |pat| <= |s| && (s[from..from + |pat|] == pat || ContainsFrom(s, pat, from + 1))
  }

  /** `s.includes(pat)`; the empty pattern is included in every string. */
  predicate Contains(s: string, pat: string) {
    ContainsFrom(s, pat, 0)
  }

  lemma {:induction false} ContainsFromIndexFrom(s: string, pat: string, from: nat)
    requires from <= |s| + 1
    ensures ContainsFrom(s, pat, from) <==> IndexFrom(s, pat, from).Some?
    decreases |s| + 1 - from
  {
    if from + |pat| <= |s| && s[from..from + |pat|] != pat {
      ContainsFromIndexFrom(s, pat, from + 1);
    }
  }

  /** `includes` holds exactly when `indexOf` finds the pattern, that is, when it occurs somewhere. */
  lemma ContainsIndexOf(s: string, pat: string)
    ensures Contains(s, pat) <==> IndexOf(s, pat).Some?
    ensures Contains(s, pat) <==> exists j :: OccursAt(s, pat, j)
  {
    ContainsFromIndexFrom(s, pat, 0);
  }

  /** `s.replace(pat, rep)` with a string pattern: only the first occurrence is replaced. */
  function ReplaceFirst(s: string, pat: string, rep: string): (r: string)
    ensures !Contains(s, pat) ==> r == s
    ensures Contains(s, pat) <==> IndexOf(s, pat).Some?
    ensures IndexOf(s, pat).Some? ==>
      var i := IndexOf(s, pat).value;
      r == s[..i] + rep + s[i + |pat|..]
  {
    ContainsIndexOf(s, pat);
    match IndexOf(s, pat)
    case None => s
    case Some(i) => s[..i] + rep + s[i + |pat|..]
  }

  /** The UTF-16 code units one character takes: two for a character above U+FFFF. */
  function Utf16Units(c: char): nat {
    if c as int < 0x1_0000 then 1 else 2
  }

  /** `s.length`: JavaScript counts UTF-16 code units, not characters. */
  function Utf16Length(s: string): (r: nat)
    ensures |s| <= r <= 2 * |s|
    ensures r == |s| <==> forall i :: 0 <= i < |s| ==> s[i] as int < 0x1_0000
    decreases |s|
  {
    if |s| == 0 then 0
    else
      var r := Utf16Units(s[0]) + Utf16Length(s[1..]);
      assert forall i :: 1 <= i < |s| ==> s[i] == s[1..][i - 1];
      r
  }

  /** A one-character pattern occurs exactly where that character stands. */
  lemma OccursAtChar(s: string, c: char, j: int)
    ensures OccursAt(s, [c], j) <==> 0 <= j < |s| && s[j] == c
  {
    if 0 <= j < |s| {
      assert s[j..j + 1] == [s[j]];
    }
  }

  /** The pieces put back together with `sep` between neighbours (`pieces.join(sep)`). */
  function Join(pieces: seq<string>, sep: string): string
    decreases |pieces|
  {
    if |pieces| == 0 then ""
    else if |pieces| == 1 then pieces[0]
    else pieces[0] + sep + Join(pieces[1..], sep)
  }

  /** The piece before the first space, put in front of the split of what
      follows the space, is a split of the whole string. */
  lemma SplitCons(s: string, i: nat, rest: seq<string>)
    requires i < |s| && s[i] == ' ' && ' ' !in s[..i]
    requires |rest| >= 1 && (forall k :: 0 <= k < |rest| ==> ' ' !in rest[k]) && Join(rest, " ") == s[i + 1..]
    ensures var r := [s[..i]] + rest;
      |r| >= 1 && (forall k :: 0 <= k < |r| ==> ' ' !in r[k]) && Join(r, " ") == s
  {
    var r := [s[..i]] + rest;
    assert r[1..] == rest;
    forall k | 0 <= k < |r| ensures ' ' !in r[k] {
      if k > 0 {
        assert r[k] == rest[k - 1];
      }
    }
    assert s == s[..i] + " " + s[i + 1..];
  }

  /** No one-character pattern occurs before `i`, so that character is not in `s[..i]`. */
  lemma CharAbsentBefore(s: string, c: char, i: nat)
    requires i <= |s|
    requires forall j :: 0 <= j < i ==> !OccursAt(s, [c], j)
    ensures c !in s[..i]
  {
    forall j | 0 <= j < i ensures s[j] != c {
      OccursAtChar(s, c, j);
    }
  }

  /** `s.split(' ')`: every piece between single spaces, empty pieces included.
      Joining the pieces with a space gives `s` back, and since no piece holds
      a space, this is the only such split. */
  function SplitSpaces(s: string): (r: seq<string>)
    ensures |r| >= 1
    ensures forall k :: 0 <= k < |r| ==> ' ' !in r[k]
    ensures Join(r, " ") == s
    decreases |s|
  {
    match IndexOf(s, " ")
    case None =>
      CharAbsentBefore(s, ' ', |s|);
      assert s[..|s|] == s;
      [s]
    case Some(i) =>
      OccursAtChar(s, ' ', i);
      CharAbsentBefore(s, ' ', i);
      var rest := SplitSpaces(s[i + 1..]);
      SplitCons(s, i, rest);
      [s[..i]] + rest
  }

  /** The characters JavaScript's `trim` removes: the white space and line
      terminators of ECMAScript, that is tab, vertical tab, form feed, space,
      no-break space, the byte order mark, the other space separators of
      Unicode and the four line terminators. */
  predicate IsWhitespace(c: char) {
    c == '\t' || c == '\U{000B}' || c == '\U{000C}' || c == ' ' || c == '\U{00A0}' || c == '\U{FEFF}'
    || c == '\U{1680}' || ('\U{2000}' <= c <= '\U{200A}') || c == '\U{202F}' || c == '\U{205F}' || c == '\U{3000}'
    || c == '\n' || c == '\r' || c == '\U{2028}' || c == '\U{2029}'
  }

  /** `s.trim() === ''`: the string holds nothing but white space. */
  predicate IsBlank(s: string) {
    forall i :: 0 <= i < |s| ==> IsWhitespace(s[i])
  }

  function DigitChar(d: nat): char
    requires d < 10
  {
    ('0' as int + d) as char
  }

  /** The number a string of decimal digits stands for. */
  function DigitsValue(s: string): int
    decreases |s|
  {
    if |s| == 0 then 0 else DigitsValue(s[..|s| - 1]) * 10 + (s[|s| - 1] as int - '0' as int)
  }

  /** `n.toString()` for a non-negative integer: its decimal digits, without leading zeros. */
  function NatToString(n: nat): (r: string)
    ensures |r| >= 1
    ensures forall i :: 0 <= i < |r| ==> '0' <= r[i] <= '9'
    ensures DigitsValue(r) == n
    ensures n > 0 ==> r[0] != '0'
  {
    if n < 10 then [DigitChar(n)]
    else
      var r := NatToString(n / 10) + [DigitChar(n % 10)];
      assert r[..|r| - 1] == NatToString(n / 10);
      r
  }

  /** `n.toString()` for an integer: a minus sign before the digits of a negative one. */
  function IntToString(n: int): (r: string)
    ensures n >= 0 ==> r == NatToString(n)
    ensures n < 0 ==> |r| >= 2 && r[0] == '-' && r[1..] == NatToString(-n)
  {
    if n < 0 then "-" + NatToString(-n) else NatToString(n)
  }
}
