/**
 * The JavaScript string operations the modelled code relies on, stated over
 * `seq<char>`: `trim`, `includes`, `startsWith`, `replace` with a string
 * pattern, `split` on one character, `join`, the `+=` accumulation of a loop
 * and ASCII `toLowerCase`.
 */
module JsString {
  import opened Wrappers

  /** The characters JavaScript's `trim` and the regular-expression class `\s` treat as white space. */
  predicate IsWhitespace(c: char) {
    c == '\t' || c == '\n' || c == '\U{000B}' || c == '\U{000C}' || c == '\r' || c == ' '
    || c == '\U{00A0}' || c == '\U{1680}' || ('\U{2000}' <= c <= '\U{200A}')
    || c == '\U{2028}' || c == '\U{2029}' || c == '\U{202F}' || c == '\U{205F}'
    || c == '\U{3000}' || c == '\U{FEFF}'
  }

  /** JavaScript truthiness of a string value that may be `undefined` or `null`: present and non-empty. */
  predicate Truthy(s: Option<string>) {
    s.Some? && s.value != ""
  }

  /** `a || b` where `a` is a string that may be missing and `b` a string. */
  function OrElse(a: Option<string>, b: string): (r: string)
    ensures Truthy(a) ==> r == a.value
    ensures !Truthy(a) ==> r == b
  {
    if Truthy(a) then a.value else b
  }

  /** Every character of `s` is white space (vacuously true of ""). */
  predicate Blank(s: string) {
    forall i | 0 <= i < |s| :: IsWhitespace(s[i])
  }

  /** Leading white space removed. */
  function TrimStart(s: string): (r: string)
    ensures |r| <= |s| && r == s[|s| - |r|..]
    ensures Blank(s[..|s| - |r|])
    ensures r == [] || !IsWhitespace(r[0])
    decreases |s|
  {
    if |s| > 0 && IsWhitespace(s[0]) then TrimStart(s[1..]) else s
  }

  /** Trailing white space removed. */
  function TrimEnd(s: string): (r: string)
    ensures |r| <= |s| && r == s[..|r|]
    ensures Blank(s[|r|..])
    ensures r == [] || !IsWhitespace(r[|r| - 1])
    decreases |s|
  {
    if |s| > 0 && IsWhitespace(s[|s| - 1]) then TrimEnd(s[..|s| - 1]) else s
  }

  /** `String.prototype.trim`: the result is empty exactly for a blank input, and otherwise neither starts nor ends with white space. */
  function Trim(s: string): (r: string)
    ensures |r| <= |s|
    ensures r == [] <==> Blank(s)
    ensures r != [] ==> !IsWhitespace(r[0]) && !IsWhitespace(r[|r| - 1])
  {
    var t := TrimStart(s);
    var r := TrimEnd(t);
    TrimParts(s, t, r);
    r
  }

  /** The facts about `Trim` that follow from those of its two halves. */
  lemma TrimParts(s: string, t: string, r: string)
    requires |t| <= |s| && t == s[|s| - |t|..] && Blank(s[..|s| - |t|]) && (t == [] || !IsWhitespace(t[0]))
    requires |r| <= |t| && r == t[..|r|] && Blank(t[|r|..]) && (r == [] || !IsWhitespace(r[|r| - 1]))
    ensures |r| <= |s| && (r == [] <==> Blank(s))
    ensures r != [] ==> !IsWhitespace(r[0]) && !IsWhitespace(r[|r| - 1])
  {
    var k := |s| - |t|;
    if r == [] {
      assert t[|r|..] == t;
      assert s == s[..k] + t;
      BlankAppend(s[..k], t);
    } else {
      assert r[0] == t[0];
      assert s[k] == t[0];
    }
  }

  lemma BlankAppend(a: string, b: string)
    requires Blank(a) && Blank(b)
    ensures Blank(a + b)
  {
    forall i | 0 <= i < |a + b| ensures IsWhitespace((a + b)[i]) {
      if i < |a| { assert (a + b)[i] == a[i]; } else { assert (a + b)[i] == b[i - |a|]; }
    }
  }

  /** A string that neither starts nor ends with white space is its own trim. */
  lemma TrimNoop(s: string)
    requires s == [] || (!IsWhitespace(s[0]) && !IsWhitespace(s[|s| - 1]))
    ensures Trim(s) == s
  {
  }

  /**
   * `Trim(s)` is the slice of `s` between a blank prefix and a blank
   * suffix; `a` is where it starts and `r` is the trimmed text.
   */
  lemma TrimSlice(s: string) returns (a: nat, r: string)
    ensures r == Trim(s)
    ensures a + |r| <= |s| && r == s[a..a + |r|]
    ensures Blank(s[..a]) && Blank(s[a + |r|..])
  {
    var t := TrimStart(s);
    r := TrimEnd(t);
    a := |s| - |t|;
    assert a + |r| <= |s| && r == s[a..a + |r|] && Blank(s[..a]) && Blank(s[a + |r|..]) by {
      SliceParts(s, t, r);
    }
  }

  /** A prefix `r` of a suffix `t` of `s` is a slice of `s`, and blank text around it stays blank. */
  lemma SliceParts(s: string, t: string, r: string)
    requires |t| <= |s| && t == s[|s| - |t|..] && Blank(s[..|s| - |t|])
    requires |r| <= |t| && r == t[..|r|] && Blank(t[|r|..])
    ensures var a := |s| - |t|;
      a + |r| <= |s| && r == s[a..a + |r|] && Blank(s[..a]) && Blank(s[a + |r|..])
  {
    assert t[|r|..] == s[|s| - |t| + |r|..];
  }

  /** Leading white space is really removed. */
  lemma TrimStartShrinks(s: string)
    requires s != [] && IsWhitespace(s[0])
    ensures |TrimStart(s)| < |s|
  {
    assert TrimStart(s) == TrimStart(s[1..]);
  }

  /** `s.startsWith(p)`. */
  predicate StartsWith(s: string, p: string) {
    |p| <= |s| && s[..|p|] == p
  }

  /** `n` occurs in `s` at index `i`. */
  predicate ContainsAt(s: string, n: string, i: int) {
    0 <= i <= |s| - |n| && s[i..i + |n|] == n
  }

  /** `s.includes(n)`. */
  predicate Contains(s: string, n: string) {
    exists i | 0 <= i <= |s| - |n| :: ContainsAt(s, n, i)
  }

  /** `s` cannot contain `n` when one of `n`'s characters is missing from `s`. */
  lemma NotContainsChar(s: string, n: string, j: nat)
    requires j < |n| && n[j] !in s
    ensures !Contains(s, n)
  {
    forall i | 0 <= i <= |s| - |n| ensures !ContainsAt(s, n, i) {
      assert s[i..i + |n|][j] == s[i + j];
    }
  }

  /**
   * `a + b` cannot contain `n` when an earlier character of `n` is missing
   * from `a` and a later one is missing from `b`: an occurrence would have to
   * place the earlier one in `b` and the later one in `a`.
   */
  lemma NotContainsAcross(a: string, b: string, n: string, j1: nat, j2: nat)
    requires j1 < j2 < |n|
    requires n[j1] !in a && n[j2] !in b
    ensures !Contains(a + b, n)
  {
    var t := a + b;
    forall i | 0 <= i <= |t| - |n| ensures !ContainsAt(t, n, i) {
      assert t[i..i + |n|][j1] == t[i + j1];
      assert t[i..i + |n|][j2] == t[i + j2];
      if i + j1 < |a| { assert t[i + j1] == a[i + j1]; } else { assert t[i + j1] == b[i + j1 - |a|]; }
      if i + j2 < |a| { assert t[i + j2] == a[i + j2]; } else { assert t[i + j2] == b[i + j2 - |a|]; }
    }
  }

  /** `n` occurs in `a + n + b` right after `a`. */
  lemma ContainsBetween(a: string, n: string, b: string)
    ensures ContainsAt(a + n + b, n, |a|) && Contains(a + n + b, n)
  {
    var s := a + n + b;
    assert s[|a|..|a| + |n|] == n;
    assert ContainsAt(s, n, |a|);
  }

  /** An occurrence inside `a` is an occurrence inside `a + b` at the same index. */
  lemma ContainsAtPrefix(a: string, b: string, n: string, i: int)
    requires ContainsAt(a, n, i)
    ensures ContainsAt(a + b, n, i)
  {
    assert (a + b)[i..i + |n|] == a[i..i + |n|];
  }

  /** An occurrence inside `b` is an occurrence inside `a + b`, shifted by `|a|`. */
  lemma ContainsAtSuffix(a: string, b: string, n: string, i: int)
    requires ContainsAt(b, n, i)
    ensures ContainsAt(a + b, n, |a| + i)
  {
    assert (a + b)[|a| + i..|a| + i + |n|] == b[i..i + |n|];
  }

  /** Prefixing `b` with text lacking the first character of `n` cannot create an occurrence of `n`. */
  lemma NotContainsAfterPrefix(a: string, b: string, n: string)
    requires n != [] && n[0] !in a && !Contains(b, n)
    ensures !Contains(a + b, n)
  {
    var t := a + b;
    forall i | 0 <= i <= |t| - |n| ensures !ContainsAt(t, n, i) {
      if i < |a| {
        assert t[i..i + |n|][0] == a[i];
      } else {
        assert t[i..i + |n|] == b[i - |a|..i - |a| + |n|];
        assert !ContainsAt(b, n, i - |a|);
      }
    }
  }

  /** The first index at or after `i` where `n` occurs, when every earlier index is already known not to be one. */
  function FirstIndexFrom(s: string, n: string, i: nat): (r: Option<nat>)
    requires forall k | 0 <= k < i :: !ContainsAt(s, n, k)
    ensures r.None? <==> !Contains(s, n)
    ensures r.Some? ==> ContainsAt(s, n, r.value) && forall k | 0 <= k < r.value :: !ContainsAt(s, n, k)
    decreases |s| - i
  {
    if i + |n| > |s| then None
    else if s[i..i + |n|] == n then
      assert ContainsAt(s, n, i);
      Some(i)
    else FirstIndexFrom(s, n, i + 1)
  }

  /** `s.indexOf(n)`, with `None` for -1. */
  function FirstIndex(s: string, n: string): (r: Option<nat>)
    ensures r.None? <==> !Contains(s, n)
    ensures r.Some? ==> ContainsAt(s, n, r.value) && forall k | 0 <= k < r.value :: !ContainsAt(s, n, k)
  {
    FirstIndexFrom(s, n, 0)
  }

  /** `s.replace(pat, rep)` with a string pattern: only the first occurrence is replaced, and `$` in `rep` is taken literally. */
  function ReplaceFirst(s: string, pat: string, rep: string): string {
    match FirstIndex(s, pat)
    case None => s
    case Some(i) => s[..i] + rep + s[i + |pat|..]
  }

  /** Replacing a pattern that does not occur leaves the string unchanged. */
  lemma ReplaceFirstAbsent(s: string, pat: string, rep: string)
    requires !Contains(s, pat)
    ensures ReplaceFirst(s, pat, rep) == s
  {
  }

  /** Replacing a pattern that starts the string swaps that prefix for `rep`. */
  lemma ReplaceFirstAtStart(s: string, pat: string, rep: string)
    requires StartsWith(s, pat)
    ensures ReplaceFirst(s, pat, rep) == rep + s[|pat|..]
  {
    assert ContainsAt(s, pat, 0);
  }

  /** `parts.join(sep)`. */
  function Join(parts: seq<string>, sep: string): string
    decreases |parts|
  {
    if |parts| == 0 then ""
    else if |parts| == 1 then parts[0]
    else parts[0] + sep + Join(parts[1..], sep)
  }

  /** `s.split(sep)` for a one-character separator: empty pieces are kept, and joining the pieces back gives `s`. */
  function Split(s: string, sep: char): (r: seq<string>)
    ensures |r| >= 1
    ensures forall k | 0 <= k < |r| :: sep !in r[k]
    ensures Join(r, [sep]) == s
    decreases |s|
  {
    if s == [] then [""]
    else
      var rest := Split(s[1..], sep);
      if s[0] == sep then
        assert [""] + rest == [""] + rest[..];
        [""] + rest
      else
        var r := [[s[0]] + rest[0]] + rest[1..];
        assert r[1..] == rest[1..];
        r
  }

  /** The text a loop builds with `acc += part` over `parts`, in order. */
  function Concat(parts: seq<string>): string
    decreases |parts|
  {
    if |parts| == 0 then "" else Concat(parts[..|parts| - 1]) + parts[|parts| - 1]
  }

  /** Accumulating two runs one after the other is accumulating their concatenation. */
  lemma {:induction false} ConcatAppend(a: seq<string>, b: seq<string>)
    ensures Concat(a + b) == Concat(a) + Concat(b)
    decreases |b|
  {
    if |b| == 0 {
      assert a + b == a;
    } else {
      var b' := b[..|b| - 1];
      assert (a + b)[..|a + b| - 1] == a + b';
      ConcatAppend(a, b');
    }
  }

  /** `toLowerCase` on one character, restricted to ASCII letters. */
  function LowerChar(c: char): char {
    if 'A' <= c <= 'Z' then (c as int + 32) as char else c
  }

  /** `s.toLowerCase()` on the ASCII range. */
  function Lower(s: string): (r: string)
    ensures |r| == |s| && forall i | 0 <= i < |s| :: r[i] == LowerChar(s[i])
  {
    seq(|s|, i requires 0 <= i < |s| => LowerChar(s[i]))
  }

  /** A string with no ASCII capital is its own lower case. */
  lemma LowerNoCapitals(s: string)
    requires forall c | c in s :: !('A' <= c <= 'Z')
    ensures Lower(s) == s
  {
    forall i | 0 <= i < |s| ensures Lower(s)[i] == s[i] {
      assert s[i] in s;
    }
  }

  /** Lower-casing works character by character, so it distributes over concatenation. */
  lemma LowerAppend(a: string, b: string)
    ensures Lower(a + b) == Lower(a) + Lower(b)
  {
    assert forall i | 0 <= i < |a + b| :: Lower(a + b)[i] == (Lower(a) + Lower(b))[i];
  }

  function DigitChar(d: nat): (c: char)
    requires d < 10
    ensures '0' <= c <= '9' && c as int - '0' as int == d
  {
    ('0' as int + d) as char
  }

  /** `${n}` for a non-negative integer: its decimal digits, without leading zeros. */
  function NatToString(n: nat): (r: string)
    ensures r != [] && forall k | 0 <= k < |r| :: '0' <= r[k] <= '9'
    ensures |r| > 1 ==> r[0] != '0'
    decreases n
  {
    if n < 10 then [DigitChar(n)] else NatToString(n / 10) + [DigitChar(n % 10)]
  }

  /** The number a string of decimal digits denotes. */
  function DigitsValue(s: string): nat
    requires forall k | 0 <= k < |s| :: '0' <= s[k] <= '9'
    decreases |s|
  {
    if s == [] then 0 else DigitsValue(s[..|s| - 1]) * 10 + (s[|s| - 1] as int - '0' as int)
  }

  /** Reading back the decimal text of `n` gives `n`. */
  lemma {:induction false} NatToStringRoundTrip(n: nat)
    ensures DigitsValue(NatToString(n)) == n
    decreases n
  {
    if n >= 10 {
      var s := NatToString(n);
      assert s[..|s| - 1] == NatToString(n / 10);
      NatToStringRoundTrip(n / 10);
    }
  }
}
